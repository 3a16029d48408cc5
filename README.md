# Voice transcription session: a Dafny model

This project models the logic of a desktop voice-dictation app: a window records microphone audio, sends it to a transcription service, and keeps a newest-first list of transcript messages. Each message has a verbatim and a concise text. Two front-end windows, the main window and a small always-on-top "notch", each keep a replica of the session. They stay in step by publishing full snapshots on three sync topics (`sync-messages`, `sync-recording`, `sync-concise`). A Rust shell centres the notch and toggles it from the tray; a global shortcut only shows it.

Modules:

- `Types` (types.dfy): the `Message` and `TranscriptionResult` records, plus `Option` and `Result`.
- `Transcript` (transcript.dfy): the list transforms both front-end components use.
  - Prepending a processing placeholder.
  - Rewriting by id for a success, a failure or a manual edit.
  - The count of messages still waiting for a result.
- `SyncBus` (sync_bus.dfy): sync events, the replica, the overwrite rule, and the fold of a window's event history.
- `AudioChunks` (audio_chunks.dfy): the recorder's chunk buffer, which keeps only non-empty chunks.
- `Recording` (recording.dfy): how far starting the recorder got, shared by both front-end components.
- `Session` (session.dfy): the synced component of `src/App.tsx` as a class `Window`.
  - Its invariant says that the replica equals the fold of every snapshot the window applied.
  - Every local change publishes exactly the new field value.
- `LegacyApp` (legacy_app.dfy): the older single-window component `App.tsx`, as a class `Recorder` without sync.
- `NotchShell` (notch_shell.dfy): from `src-tauri/src/lib.rs`.
  - The centring arithmetic, using Rust's truncating `i32` division.
  - The tray, shortcut, menu and close handlers over abstract window records.
  - The global-shortcut registry.

Some inputs come from outside the code and become parameters:

- how far starting the recorder got: device refused, recorder not constructed, `start()` failed, or started;
- the answer of the confirmation dialog;
- the generated message id and the timestamp;
- the service's outcome;
- the primary monitor's width;
- whether unregistering all shortcuts succeeded, the parse result of a shortcut string, and the registration error.

Message ids come from `Math.random`, so they are not guaranteed to be unique. The rewrites therefore change every message that carries the id. Uniqueness is kept as a property the operations preserve, not as a precondition.

Behaviours of the code worth knowing:

- A successful transcription does not clear an earlier `error` (the object spread keeps it). A failure keeps the message's texts.
- A window that has never recorded and learned "recording" only from a `sync-recording` snapshot holds no recorder, so its stop action does nothing (`Session.StopInFollowerWindow`).
- The recorder ref is never cleared. A window that recorded earlier therefore passes the stop guard after receiving another window's `sync-recording true`: it publishes `false`, and the recording window takes that value while its own recorder keeps running (`Session.StopFromEarlierRecorder`).
- If `start()` throws, the recorder ref is already set and the buffer already emptied, but the flag stays as it was and nothing is published.
- src/App.tsx registers no listener for `super-key-press`, so the model has no auto-copy when a shortcut-triggered transcription completes.

## Model

| member | source | states |
|---|---|---|
| Transcript.UpdateWhere | src/App.tsx:138-142 | Mapping by id rewrites every message with that id and keeps every other one. Length and order are unchanged. Ids and timestamps never change, and no message goes back to processing |
| Transcript.UpdateWhereFrame | src/App.tsx:138-142 | An id that no message carries leaves the list equal, and a list with unique ids keeps them unique |
| Transcript.StartTranscript | src/App.tsx:118-131 | The list grows by one. The head has the given id and timestamp, empty texts, `isProcessing` and no error. The tail is the old list. One more message is pending. A fresh id keeps ids unique |
| Transcript.ApplySuccess | src/App.tsx:137-145 | Every message with the id takes the service's verbatim text. Its concise text is the service's, or `""` when absent. It stops processing and keeps its error, id and timestamp. All other messages are unchanged, and an absent id changes nothing |
| Transcript.ApplyFailure | src/App.tsx:146-155 | Every message with the id stops processing and gets an error: the failure's message, or "Failed to transcribe audio." when it is missing or empty. Its texts are untouched and other messages are unchanged |
| Transcript.EditText | src/App.tsx:159-170 | On messages with the id, only the concise text changes (concise view) or only the verbatim text (verbatim view). Every other field and message is kept, and the pending count is unchanged |
| Transcript.Settle | src/App.tsx:133-156 | Settling a transcription keeps the length, never increases the pending count, and decreases it when a message with the id was waiting |
| Transcript.SettlingReducesPending | src/App.tsx:137-155 | Success and failure rewrites never add a waiting message. They remove at least one when a message with the id was waiting |
| Transcript.EditTextKeepsPending | src/App.tsx:159-170 | A manual edit leaves the number of waiting messages unchanged |
| SyncBus.ApplyOverwrites | src/App.tsx:25-35 | A received snapshot sets its topic's field to the payload, whatever the prior value, and leaves the other fields alone |
| SyncBus.SameTopicOverwrites | src/App.tsx:25-35 | Of two snapshots on the same topic, only the later one's payload remains |
| SyncBus.DistinctTopicsCommute | src/App.tsx:25-35 | Two snapshots on different topics give the same replica in either arrival order |
| SyncBus.ApplyIdempotent | src/App.tsx:25-35 | Receiving the same snapshot twice, for example one's own echo, changes nothing more |
| SyncBus.LastWriterWins | src/App.tsx:25-35 | After any sequence of snapshots, each field holds the payload of the latest snapshot on its topic. A field whose topic never appeared keeps its value |
| SyncBus.Converge | src/App.tsx:25-35 | Two replicas with arbitrary starting states that apply the same snapshots, covering all three topics, end up equal |
| AudioChunks.Kept | App.tsx:25-29 | The buffer built from delivered chunks holds only non-empty chunks that were delivered, and no more chunks than were delivered |
| AudioChunks.KeptSnoc | src/App.tsx:73-77 | The buffer built one delivery at a time, pushing a chunk only when its size is positive, equals the filter of all chunks delivered so far (proved by induction over the deliveries) |
| AudioChunks.KeptKeepsEveryByte | src/App.tsx:73-81 | Dropping empty chunks loses no audio: the buffer's total size equals the total size delivered |
| AudioChunks.KeptOfNonEmpty | App.tsx:25-29 | The filter leaves a buffer of non-empty chunks unchanged |
| Session.Window.constructor | src/App.tsx:11-18 | A window starts with no messages, both flags false, no recorder, an empty buffer and nothing published |
| Session.Window.Publish | src/App.tsx:46-56 | Emitting appends the payload to what the window published, and the replica stays the fold of its history |
| Session.Window.ToggleConcise | src/App.tsx:58-62 | `isConcise` is negated, and exactly that new value is published on `sync-concise`. Nothing else changes |
| Session.Window.StartRecording | src/App.tsx:64-95 | Once the recorder is constructed, the recorder ref is set and the buffer emptied. Only when `start()` returns is the flag set and `true` published; if it throws the replica and the published events are unchanged. A refused device or recorder changes nothing |
| Session.Window.OnDataAvailable | src/App.tsx:73-77 | A chunk is appended only if its size is positive, so the buffer is exactly the non-empty chunks delivered since the start |
| Session.Window.StopRecording | src/App.tsx:97-103 | The window acts only when a recorder exists and the flag is set. Then the flag is cleared and `false` is published; otherwise nothing changes |
| Session.Window.OnRecorderStop | src/App.tsx:117-131 | The blob is the buffered chunks tagged `audio/webm`, as the `onstop` handler at src/App.tsx:80 builds it. The list becomes the placeholder-prepended list, and that exact list is published |
| Session.Window.OnTranscribed | src/App.tsx:133-156 | The list becomes the success or failure rewrite for the id. The pending count does not grow, and that exact list is published |
| Session.Window.UpdateTranscription | src/App.tsx:159-170 | The list becomes the edit of the text of the active view, and that exact list is published |
| Session.Window.ClearHistory | src/App.tsx:183-201 | The plugin's answer decides, or the fallback confirm's answer when the plugin fails. When confirmed, the list is emptied and `[]` is published; otherwise nothing changes |
| Session.Window.Receive | src/App.tsx:25-35 | A received snapshot overwrites its field as `SyncBus.Apply` says. Nothing is re-published, and the recorder and buffer are untouched |
| Session.StopInFollowerWindow | src/App.tsx:97-103 | A window that has never recorded and only received `sync-recording true` cannot stop the recording |
| Session.StopFromEarlierRecorder | src/App.tsx:64-103 | A window that recorded earlier and then receives `sync-recording true` stops successfully and publishes `false`, which clears the flag of the window whose recorder is still running |
| Session.ToggleReachesOtherWindow | src/App.tsx:58-62 | After another window receives the toggled snapshot, both windows show the same display mode |
| LegacyApp.Recorder.constructor | App.tsx:10-14 | The component starts with no messages, not recording, no recorder and an empty buffer |
| LegacyApp.Recorder.StartRecording | App.tsx:16-46 | Once the recorder is constructed, the recorder ref is set and the buffer emptied. The flag is set only when `start()` returns. A refused device or recorder changes nothing |
| LegacyApp.Recorder.OnDataAvailable | App.tsx:25-29 | Only chunks with positive size are appended, so the buffer never holds an empty chunk |
| LegacyApp.Recorder.StopRecording | App.tsx:48-53 | The flag is cleared exactly when a recorder exists and the flag was set |
| LegacyApp.Recorder.OnRecorderStop | App.tsx:67-77 | Exactly one placeholder is prepended, with the old list as the tail, and the blob is the buffered chunks |
| LegacyApp.Recorder.OnTranscribed | App.tsx:79-94 | The list becomes the success or failure rewrite for the id, and the pending count does not grow |
| LegacyApp.Recorder.ClearHistory | App.tsx:97-101 | The list is emptied when confirmed and untouched otherwise |
| LegacyApp.RecordAndTranscribe | App.tsx:67-87 | Recording, stopping and a successful transcription leave a settled message with the service's texts and no error |
| LegacyApp.RecordAndFail | App.tsx:88-94 | A failed transcription with a message leaves the message settled, with that error and an empty verbatim text |
| NotchShell.CenterX | src-tauri/src/lib.rs:19-22 | `x` is the i32 quotient of `monitor_w - window_w` by 2, truncated toward zero. When the window fits, `0 <= x` and `x + window_w <= monitor_w` |
| NotchShell.ShowCentred | src-tauri/src/lib.rs:71-78 | The window becomes visible and focused. With a known monitor it sits at the centred `x` with `y = 0` and within the monitor if it fits; without one its position is unchanged |
| NotchShell.TrayToggled | src-tauri/src/lib.rs:66-80 | A visible notch is hidden in place. A hidden one is shown, centred first only when the monitor is known |
| NotchShell.ShortcutShown | src-tauri/src/lib.rs:91-102 | The notch is visible afterwards. An already visible notch keeps its visibility and position |
| NotchShell.TrayClickTwice | src-tauri/src/lib.rs:63-81 | Two tray clicks restore the notch's visibility |
| NotchShell.ShortcutIdempotent | src-tauri/src/lib.rs:16-27 | A second shortcut press changes nothing further |
| NotchShell.Shell.constructor | src-tauri/src/lib.rs:85-105 | Set-up registers exactly the default shortcut `CommandOrControl+Shift+X` |
| NotchShell.Shell.UpdateSuperKey | src-tauri/src/lib.rs:9-33 | All shortcuts are unregistered first, and a failure to do so is ignored. An unparsable string gives `Err("invalid shortcut: <s>")` and a registration error is passed through; neither adds a shortcut. Success adds exactly the new shortcut to what is left after unregistering |
| NotchShell.Shell.OnShortcut | src-tauri/src/lib.rs:14-29 | Only a press of a registered shortcut acts: the notch is shown if it exists and is hidden, and `super-key-press` is emitted exactly once. A visible notch is left unchanged |
| NotchShell.Shell.OnTrayClick | src-tauri/src/lib.rs:63-82 | The notch, if it exists, is toggled as `TrayToggled` says |
| NotchShell.Shell.OnMenuEvent | src-tauri/src/lib.rs:51-62 | `quit` exits with code 0. `show` shows and focuses the main window if it exists. Any other id changes nothing |
| NotchShell.Shell.OnMainCloseRequested | src-tauri/src/lib.rs:107-116 | The close is prevented and the main window is hidden, so the app keeps running |

## Left out

- NotchShell.CenterX: widths are limited to values below 2^31 (`Dimension`). The wrap-around of a larger `u32` cast to `i32` is not modelled.
- Transcription service (src/services/geminiService.ts): only its abstract outcome is modelled, as success with texts or failure with an optional message. Its request building and JSON parsing are calls into an external client.
- Audio capture (`getUserMedia`, `MediaRecorder`, `Blob`, `FileReader`) and the base64 conversion: chunks are abstract sizes, and how far acquisition got is a parameter. The `stream` state used only for the visualiser is left out.
- `alert`, `console.error`, the clipboard (`handleCopy` and its `copied` timer) and all rendering, including the choice between the notch and main layouts by URL hash: these are presentation and platform calls.
- Asynchrony: each handler is one atomic step. Overlapping transcriptions are possible in the model only as interleaved `OnRecorderStop`/`OnTranscribed` calls. Event-bus delivery order and loss are not modelled; a received snapshot is an explicit `Receive` call.
- NotchShell: panics from `unwrap()`, logging-plugin setup, tray-icon construction and real window and monitor handles are left out. `primary_monitor()` returning an error and returning no monitor are both the absent-monitor parameter.
- NotchShell.Shell.UpdateSuperKey: a failed unregistering is taken to leave the registry unchanged; a partial failure is not modelled.
- The process exit triggered by `quit` is recorded as an exit code; the shutdown itself is not modelled.
