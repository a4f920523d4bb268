# MIDIExport front end, modelled in Dafny

MIDIExport is a browser app. It turns an uploaded audio file into a MIDI file by polyphonic pitch detection, which runs in a Web Worker. It can also send the file to a local source-separation server and play back the returned stems. This project models the front end's core. Each core source file becomes one module:

- `DropZone`: the drop area and its audio-file check (`frontend/components/DropZone.tsx`).
- `PitchWorker`: the pitch-detection worker and its message protocol (`src/workers/basicPitchWorker.ts`).
- `TranscriberClient`: the client hook that starts transcriptions and follows the worker's replies (`frontend/hooks/useTranscriber.ts`).
- `AudioPlayer`: the single-source player hook (`frontend/hooks/useAudioPlayer.ts`).
- `Separation`: the source-separation client hook (`src/hooks/useSourceSeparation.ts`).
- `PlayerBar`: the player bar's time formatting, seek and volume arithmetic (`frontend/components/AudioPlayerBar.tsx`).
- `App`: the application shell. It wires the hooks together and holds the file, MIDI URL, tab and stem-track state (`frontend/App.tsx`).

Two more modules hold shared definitions. `Protocol` has the worker message and reply types. `Common` has Option/Result and ASCII string helpers.

Objects whose fields the source updates in place are classes with `modifies` clauses:

- the hooks' state: `Transcriber`, `Player`, `SourceSeparation`
- the worker's model reference: `Worker`
- the drop area: `DropArea`
- the shell: `Shell`

Pure computations are functions with lemmas:

- reply handling, time formatting, the file-name regex, track toggling and stem-URL rewriting

The worker's accumulation loop and the stem-URL loop are methods with loop invariants. Each is proved equal to a specification function.

The boundaries of the model:

- **Worker model library.** The model library inside the worker is a parameter. `evaluateModel` is given as an `Evaluation`: the sequence of output chunks and progress callbacks it makes, plus an optional failure. The note post-processing is a function argument.
- **Network, decoding and encoding.** Network responses, audio decoding and MIDI encoding are inputs too.
- **Asynchronous handlers.** Each one is split at its `await`s into separate methods that the caller runs in order. A separation request is `Begin` then `Complete`. Loading a file is `HandleFileSelected`, then `FileBytesRead`, `FileDecoded` and `FileResampled`, one per await that succeeds. `FileLoadFailed` is the `catch`, run after whichever await failed.
- **Platform objects.** Audio contexts, analysers and buffer sources are numbered in creation order, so "new" means an id not used before.
- **JavaScript arithmetic.** `Math.floor`, `%` and `Math.round` are modelled exactly on reals. `%` truncates toward zero, and `Math.round` rounds halves up.

The App shell calls a multi-stem transport: `playTracks`, `toggleTrackMute`, `seek` and the like. The player hook in `frontend/hooks/useAudioPlayer.ts` does not define it. The shell records each transport call it makes as a `TransportCall` value, and nothing more is assumed about it.

## Model

| member | source | states |
|---|---|---|
| DropZone.ExtensionCaseInsensitive | frontend/components/DropZone.tsx:38 | the extension test ignores ASCII letter case: a name passes iff its lower-cased form passes |
| DropZone.ExtensionMustBeLast | frontend/components/DropZone.tsx:38 | the extension must end the name: `x.mp3.txt` with a non-audio type is refused |
| DropZone.ExtensionNeedsDot | frontend/components/DropZone.tsx:38 | a name without any dot never passes the extension test, so only its MIME type can make it audio |
| DropZone.UpperCaseExtensionAccepted | frontend/components/DropZone.tsx:38 | `base + ".MP3"` is accepted whatever the MIME type (the `i` flag) |
| DropZone.MimeTypeCaseSensitive | frontend/components/DropZone.tsx:38 | the MIME prefix test is case-sensitive: `Audio/wav` alone does not make a file audio |
| DropZone.Choose | frontend/components/DropZone.tsx:25-34 | only the first file of a list counts: no file for an empty list, otherwise that file accepted iff it is an audio file |
| DropZone.Delivered | frontend/components/DropZone.tsx:37-42 | a selection passes at most one file to the callback, and only an accepted one |
| DropZone.OnlyFirstCounts | frontend/components/DropZone.tsx:25-34 | two lists with the same first file give the same selection |
| DropZone.DropArea.constructor | frontend/components/DropZone.tsx:9 | the area starts with no drag highlight, no file passed and no alert |
| DropZone.DropArea.DragOver | frontend/components/DropZone.tsx:12-15 | drag-over turns the highlight on and changes nothing else |
| DropZone.DropArea.DragLeave | frontend/components/DropZone.tsx:17-20 | drag-leave turns the highlight off and changes nothing else |
| DropZone.DropArea.ValidateAndPass | frontend/components/DropZone.tsx:37-43 | an audio file is passed on, and any other file raises exactly one alert instead |
| DropZone.DropArea.Drop | frontend/components/DropZone.tsx:22-29 | a drop clears the highlight and validates only the first dropped file; an empty drop does nothing else |
| DropZone.DropArea.Change | frontend/components/DropZone.tsx:31-35 | an input change validates the first chosen file; a missing or empty file list does nothing |
| PitchWorker.ErrorText | src/workers/basicPitchWorker.ts:65 | an ERROR payload is never empty: the error message, or "Unknown error in worker" when it is empty |
| PitchWorker.ProgressReplies | src/workers/basicPitchWorker.ts:40-42 | one PROGRESS reply per progress callback, in order, carrying its fraction |
| PitchWorker.AllOutputSnoc | src/workers/basicPitchWorker.ts:50-54 | one more output chunk appends its frames, onsets and contours to the accumulated ones |
| PitchWorker.ProgressRepliesSnoc | src/workers/basicPitchWorker.ts:40-42 | one more progress callback appends exactly one PROGRESS reply |
| PitchWorker.RunModel | src/workers/basicPitchWorker.ts:44-56 | the accumulation loop ends with the concatenation of all output chunks and the PROGRESS replies of all progress callbacks |
| PitchWorker.AllOutputAppend | src/workers/basicPitchWorker.ts:44-56 | accumulation is compositional: the output of two event runs is the concatenation of their outputs |
| PitchWorker.ModelAfter | src/workers/basicPitchWorker.ts:19-31 | INIT creates the model only when there is none; no other message changes the model reference |
| PitchWorker.InitIdempotent | src/workers/basicPitchWorker.ts:19-31 | INIT answers exactly one INIT_COMPLETE, whether or not the model already existed, and a second INIT changes nothing |
| PitchWorker.UnrecognisedIgnored | src/workers/basicPitchWorker.ts:15-67 | a message of any other type gets no reply and leaves the model alone |
| PitchWorker.ProcessEndsOnce | src/workers/basicPitchWorker.ts:32-66 | PROCESS gets exactly one terminal reply (RESULT or ERROR), it comes last, and everything before it is PROGRESS |
| PitchWorker.ProcessBeforeInit | src/workers/basicPitchWorker.ts:32-35 | PROCESS before INIT answers a single ERROR "BasicPitch not initialized" |
| PitchWorker.ProcessWithModel | src/workers/basicPitchWorker.ts:40-66 | with a model, the replies are the progress replies, then RESULT of the post-processed notes, or ERROR when evaluation or post-processing fails |
| PitchWorker.Worker.constructor | src/workers/basicPitchWorker.ts:13 | the worker starts with no model and no reply posted |
| PitchWorker.Worker.OnMessage | src/workers/basicPitchWorker.ts:15-67 | handling a message appends its replies to the posted ones, updates the model as `ModelAfter` says and never creates a second model |
| TranscriberClient.Round | frontend/hooks/useTranscriber.ts:30 | `Math.round` gives the integer within one half of its argument |
| TranscriberClient.PercentOf | frontend/hooks/useTranscriber.ts:30 | a progress fraction in [0, 1] is shown as a percentage in 0..100, with 0 and 1 shown as exactly 0 and 100 |
| TranscriberClient.PercentMonotone | frontend/hooks/useTranscriber.ts:30 | the rounded percentage never goes down when the fraction does not |
| TranscriberClient.InitCompleteNoChange | frontend/hooks/useTranscriber.ts:27-28 | INIT_COMPLETE leaves the state as it was |
| TranscriberClient.ProgressChangesOnlyProgress | frontend/hooks/useTranscriber.ts:29-30 | PROGRESS sets the percentage and changes neither `isProcessing` nor the result |
| TranscriberClient.ResultCompletes | frontend/hooks/useTranscriber.ts:31-34 | RESULT stores the notes, stops processing and sets progress to 100 |
| TranscriberClient.ErrorStops | frontend/hooks/useTranscriber.ts:35-38 | ERROR stops processing and keeps the result and the percentage |
| TranscriberClient.LateProgressOverwrites | frontend/hooks/useTranscriber.ts:29-34 | a PROGRESS arriving after the RESULT replaces the 100 while the result stays |
| TranscriberClient.RunAppend | frontend/hooks/useTranscriber.ts:24-40 | receiving two streams of replies one after the other is receiving their concatenation |
| TranscriberClient.ProgressRun | frontend/hooks/useTranscriber.ts:29-30 | a stream of PROGRESS replies keeps `isProcessing` and the result, ends at the last one's percentage and stays in 0..100 |
| TranscriberClient.ClientFollowsWorker | frontend/hooks/useTranscriber.ts:24-40 | after a start, the replies of an initialised worker leave the client not processing; the result is the notes, at 100, exactly when the worker ends with RESULT, and absent when it ends with ERROR |
| TranscriberClient.ClientBeforeWorkerInit | frontend/hooks/useTranscriber.ts:35-38 | a request the worker receives before INIT leaves the client not processing, at 0, with no result |
| TranscriberClient.Transcriber.constructor | frontend/hooks/useTranscriber.ts:14-18 | the hook starts not processing, at 0, with no result, no worker and nothing sent |
| TranscriberClient.Transcriber.Mount | frontend/hooks/useTranscriber.ts:20-42 | mounting creates the worker and posts INIT |
| TranscriberClient.Transcriber.StartTranscription | frontend/hooks/useTranscriber.ts:49-67 | without a worker only an alert is raised; otherwise the result is cleared, progress is 0, processing is on and one PROCESS with the audio and rate is posted |
| TranscriberClient.Transcriber.OnMessage | frontend/hooks/useTranscriber.ts:24-40 | each reply moves the state as `Receive` says; an ERROR reply also raises its alert |
| TranscriberClient.Transcriber.ResetTranscriber | frontend/hooks/useTranscriber.ts:69-73 | reset returns to the initial state and posts nothing |
| AudioPlayer.StopNode | frontend/hooks/useAudioPlayer.ts:39-43 | stopping a source leaves it not playing, and one that had already stopped or ended is left unchanged (the error is swallowed) |
| AudioPlayer.Player.constructor | frontend/hooks/useAudioPlayer.ts:12-20 | no context, source or analyser, and the flag is off |
| AudioPlayer.Player.InitAudioContext | frontend/hooks/useAudioPlayer.ts:22-34 | a new open context and a new analyser only when there is no context or it is closed; otherwise the same context is returned and the analyser kept |
| AudioPlayer.Player.PlayAudio | frontend/hooks/useAudioPlayer.ts:36-93 | the previous current source is stopped and every other source kept; an open context is kept, a missing or closed one replaced by a new one; a new playing source on the buffer, wired to one more fresh analyser, becomes current; the creation counters move by exactly what was created; the flag is on and tells the truth |
| AudioPlayer.Player.StopAudio | frontend/hooks/useAudioPlayer.ts:95-102 | the current source is stopped, the reference is kept and the flag is off |
| AudioPlayer.Player.ContextClosed | frontend/hooks/useAudioPlayer.ts:23 | the platform closing the context marks it closed, so the next `InitAudioContext` replaces it |
| AudioPlayer.Player.OnEnded | frontend/hooks/useAudioPlayer.ts:92 | as written: the end of any source, current or replaced, turns the flag off |
| AudioPlayer.Player.OnEndedGuarded | frontend/hooks/useAudioPlayer.ts:92 | corrected: only the current source's end turns the flag off, so the flag keeps telling the truth |
| AudioPlayer.StaleEndedClearsFlag | frontend/hooks/useAudioPlayer.ts:39-43 | after two plays, the stopped first source's `ended` event leaves the flag off while the second source is playing |
| AudioPlayer.StaleEndedIgnoredWhenGuarded | frontend/hooks/useAudioPlayer.ts:92 | the same events with the guarded handler keep the flag on and truthful |
| Separation.ErrorText | src/hooks/useSourceSeparation.ts:50 | the stored error is never empty: the message, or "Separation failed" |
| Separation.RewriteStems | src/hooks/useSourceSeparation.ts:36-43 | the loop keeps exactly the string-valued stems, each prefixed with `http://localhost:8000` |
| Separation.SuccessRewritesPaths | src/hooks/useSourceSeparation.ts:33-43 | on success the result keys are the string-valued stems, and each URL is the backend origin followed by the original path |
| Separation.FailureMessages | src/hooks/useSourceSeparation.ts:28-50 | every failure carries a non-empty message; a non-ok response reports the server's detail or "Separation failed"; `success: false` reports "Server returned success: false" |
| Separation.SourceSeparation.constructor | src/hooks/useSourceSeparation.ts:8-10 | not separating, with no result and no error |
| Separation.SourceSeparation.Begin | src/hooks/useSourceSeparation.ts:13-15 | a request starts separating and clears the result and the error |
| Separation.SourceSeparation.Complete | src/hooks/useSourceSeparation.ts:17-53 | after the response, either the result or the error is stored as `Outcome` says, and separation is over in every case |
| Separation.SourceSeparation.SeparateAudio | src/hooks/useSourceSeparation.ts:12-54 | an uninterrupted request ends settled: the result with no error on success, the error with no result on failure |
| Separation.SourceSeparation.ResetSeparation | src/hooks/useSourceSeparation.ts:56-60 | reset returns to no result, no error, not separating |
| PlayerBar.DecimalValueOfNatToString | frontend/components/AudioPlayerBar.tsx:17 | the decimal string of a number reads back as that number |
| PlayerBar.FormatTimeFields | frontend/components/AudioPlayerBar.tsx:14-18 | for a time t ≥ 0 the label is `m:ss` with m = ⌊t/60⌋, two-digit seconds 0..59 and m·60 + s = ⌊t⌋ |
| PlayerBar.ClockReadsBack | frontend/components/AudioPlayerBar.tsx:17 | an `m:ss` label built from whole minutes and seconds below 60 reads back as their total in seconds |
| PlayerBar.FormatTimeReadsBack | frontend/components/AudioPlayerBar.tsx:14-18 | parsing the label gives back the whole seconds ⌊t⌋ |
| PlayerBar.ProgressPercent | frontend/components/AudioPlayerBar.tsx:23 | 0 without a positive duration; within [0, 100] for a time within the duration; 0 iff the time is 0, 100 iff it equals the duration |
| PlayerBar.ProgressMonotone | frontend/components/AudioPlayerBar.tsx:23 | the progress bar never moves back as time moves on |
| PlayerBar.ProgressClickTarget | frontend/components/AudioPlayerBar.tsx:25-30 | a click inside the bar seeks into [0, duration], to the start at the left edge and to the end at the right edge |
| PlayerBar.ClickThenProgress | frontend/components/AudioPlayerBar.tsx:23-30 | seeking by a click and then drawing the bar puts the fill exactly at the clicked fraction of the width |
| PlayerBar.VolumeFromClick | frontend/components/AudioPlayerBar.tsx:148 | a volume click gives a value in [0, 1]: the clicked fraction, clamped at both ends |
| PlayerBar.MuteButtonVolume | frontend/components/AudioPlayerBar.tsx:128 | the mute button sets 0 for an audible volume and 1 for a silent one |
| PlayerBar.MuteThenUnmute | frontend/components/AudioPlayerBar.tsx:128 | two presses from any audible volume end at full volume, not at the earlier level |
| PlayerBar.MuteButtonTogglesIcon | frontend/components/AudioPlayerBar.tsx:128-142 | for a non-negative volume, each press flips the muted icon |
| App.StemIconCaseInsensitive | frontend/App.tsx:129-138 | the stem icon depends only on the lower-cased name |
| App.PlainTailLength | frontend/App.tsx:254 | the length of the run of characters other than `/` and `.` that ends the name |
| App.MidiFileName | frontend/App.tsx:254 | the download name ends in `.mid` |
| App.ExtensionUnique | frontend/App.tsx:254 | at most one position of a name can start a regex match |
| App.StripExtensionMatchesRegex | frontend/App.tsx:254 | the stripped name removes exactly the one match of `/\.[^/.]+$/`, or is the name itself when nothing matches |
| App.StripPlainExtension | frontend/App.tsx:254 | a final extension without `/` or `.` is removed and the base is kept |
| App.NoDotKeepsName | frontend/App.tsx:254 | a name without a dot is left unchanged |
| App.ToggleTrackFlips | frontend/App.tsx:81-88 | toggling stores the negation of the stem's stored flag (a missing entry reads as not active), requests mute exactly when the stem was stored active, and leaves every other stem alone |
| App.ToggleTwiceRestores | frontend/App.tsx:81-88 | toggling a stem that has an entry twice gives back the same map |
| App.ToggleMissingEntry | frontend/App.tsx:81-88 | a stem with no entry is shown active, yet its first toggle stores `true` and unmutes it, so the display does not change |
| App.InitialActiveTracks | frontend/App.tsx:59-63 | the loop gives every loaded stem an entry, each `true`, and no other entry |
| App.GenerateMidi | frontend/utils/midi.ts:4-7 | no URL for an empty note list, otherwise the encoder's URL |
| App.Shell.constructor | frontend/App.tsx:14-24 | mounting gives no file, no MIDI URL, the MIDI tab, no stem entries, not loading, and every hook in its initial state; the transcriber's mount effect has created the worker and posted INIT |
| App.Shell.HandleFileSelected | frontend/App.tsx:90-96 | a selected file replaces the old one and clears the MIDI URL, the transcription, the separation and the stem entries; the tab becomes MIDI; the worker stays and nothing else changes |
| App.Shell.FileBytesRead | frontend/App.tsx:99-100 | once the bytes are read, an open audio context exists (new, with a new analyser, only when there was none or it was closed) |
| App.Shell.FileDecoded | frontend/App.tsx:101-102 | the decoded buffer plays as the new current source and the previous one is stopped |
| App.Shell.FileResampled | frontend/App.tsx:104-105 | the resampled audio is sent to the worker in one PROCESS and the transcriber is processing; without a worker only the alert |
| App.Shell.FileLoadFailed | frontend/App.tsx:107-111 | a failure after any await raises one alert and resets the transcription; the player keeps what the earlier steps did, and nothing else changes |
| App.LoadAndTranscribe | frontend/App.tsx:90-105 | a file selected after mount whose awaits all succeed plays, and the worker has received exactly INIT and one PROCESS of the resampled audio |
| App.Shell.HandleSeparate | frontend/App.tsx:114-118 | with a file, one separation request with the default model and the hook separating; without one, nothing changes |
| App.Shell.Reset | frontend/App.tsx:120-127 | reset clears the file, the MIDI URL and the stem entries, stops the current source, resets the transcription and the separation, and keeps the tab, the worker and everything else |
| App.Shell.SelectTab | frontend/App.tsx:191-216 | either tab button stops the current source and switches to its tab; nothing else changes |
| App.Shell.ToggleTrackOf | frontend/App.tsx:81-88 | the stem entries become `ToggleTrack`'s new map and exactly one mute call reaches the transport; nothing else changes |
| App.Shell.StemsLoadStarted | frontend/App.tsx:42-45 | stem loading starts iff there is a separation result and the separation tab is active; it then shows loading and makes the audio context ready, and otherwise nothing changes |
| App.Shell.StemsLoadFailed | frontend/App.tsx:65-70 | a failed stem load ends the loading state and changes nothing else |
| App.Shell.StemsLoaded | frontend/App.tsx:55-70 | loaded stems go to the transport in one call, the stem entries become exactly the loaded names, each active, loading ends, and nothing else changes |
| App.Shell.TranscriptionResultChanged | frontend/App.tsx:27-36 | a non-empty result sets the MIDI URL from the encoder; an empty one raises the "No notes detected!" alert; no result changes nothing; nothing else changes in any case |
## Left out

- The multi-stem transport (`playTracks`, `toggleTrackMute`, `togglePlayPause`, `seek`, `setVolume`, `currentTime`, `duration`, `volume`). `frontend/App.tsx:20` uses it, but `frontend/hooks/useAudioPlayer.ts` does not define it. The shell only records the calls it makes.
- Interleavings of asynchronous work are not modelled:
  - the stem-loading effect's `active` cancellation flag, including the cleanup that keeps `isStemsLoading` set
  - overlapping separation requests
  - a separation response that arrives after a reset
  - a worker reply that arrives after a new start

  Each continuation is a method that the caller runs in order.
- Terminating the worker on unmount (`frontend/hooks/useTranscriber.ts:44-46`). The model has no unmount.
- IEEE-754 doubles. Times, fractions and volumes are exact reals, so NaN, infinities and rounding of `x / width` are not modelled. The click functions require a positive width, where the source would produce NaN or an infinity.
- A PROCESS message without a `payload`. That makes the worker throw a `TypeError`, which becomes an ERROR reply. The model's PROCESS always carries its audio.
- Conversion of the server's `detail` to a string, and a non-object `stems` value other than a missing one. Both are inputs: `NotOk(detail)` carries the already-converted string. The `__proto__` and inherited-property quirks of plain JavaScript objects are not modelled. The same goes for `prev[name]` in `toggleTrack` when `name` is an inherited property.
- Fetching, decoding and resampling audio (`src/utils/audio.ts` is not part of this model). MIDI encoding in `@tonejs/midi`, and the pitch model and note post-processing of `@spotify/basic-pitch`, are parameters.
- The download handler, the visualiser (`src/components/Visualizer.tsx`), the layout, all styling and hover state, the backend (`backend/`) and `generate_wav.py`. `src/App.tsx` is an older shell and is not part of this model.
- Console logging. Alerts are recorded as a log of their texts.
- React's batching of state updates, and its double invocation of updater functions in development mode. Each handler's updates are applied at once and in order.
- Unicode case mapping. `toLowerCase` is modelled on ASCII letters only. This is exact for the five stem names and for the extension test, which only ever compares with ASCII letters.

## Findings

| source | as written | input that shows it | evidently intended | confidence | as-written member | corrected member |
|---|---|---|---|---|---|---|
| frontend/hooks/useAudioPlayer.ts:92 | every source's `onended` handler sets `isPlaying` false, including a source that has already been replaced; Web Audio fires `ended` after `stop()` (line 41) too | `playAudio(b0)`, then `playAudio(b1)`: the first source is stopped and its `ended` event then arrives | only the current source's end clears the flag, so `isPlaying` stays true while `b1` plays | medium, not executed | AudioPlayer.StaleEndedClearsFlag | AudioPlayer.Player.OnEndedGuarded |
