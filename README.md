# VoiceScribe in Dafny

A Dafny model of the core of VoiceScribe, a speech-to-text web application.
The model covers:

- **The streaming transcription server** (`server/websocket.ts`). It keeps two maps keyed by client id: the audio chunks each connection sent, in arrival order, and its running partial transcript.
  - Every fifth chunk triggers a partial transcription of the last five chunks, and a successful one appends `" " + text` to the transcript.
  - A `{"type":"stop"}` frame sends all the chunks for a final transcription. When that succeeds, the server returns the provider's text as final and forgets the connection.
  - Module `SessionStore`. Class `Server` holds the two maps as fields.
- **The live-transcription component** (`components/transcription-app.tsx`): the `HH:MM:SS` clock, the assembly of the recogniser's results, first-letter capitalisation, and the listening/paused/timer/save state. Module `TranscriptionApp`.
- **The recording button** (`components/audio-recorder.tsx`): the `m:ss` timer text, click dispatch, routing of server messages, the chunk list, the stop signal, and the recording/processing flags. Module `AudioRecorder`.
- **The saved-transcriptions page** (`app/transcriptions/page.tsx`): the duration text and the list that a delete filters. Module `TranscriptionsPage`.
- **The upload form** (`components/upload/audio-upload.tsx`): the size gate, the sanitised storage name and path, and the upload state. Module `AudioUpload`.

Two support modules sit under these. `Text` holds decimal text (`Number#toString`, `padStart`) and a reader for it. `Wrappers` holds `Option`.

Every formatter has a round-trip partner. `ReadClockFields` and `ParseDuration` read the text back to the numbers it was made from, and the lemmas prove the round trip for all inputs. The injectivity results follow from these round trips.

The server is specified one message at a time, on one connection's `Session`:

- `Receive` is built from `StopFrame` and `AudioFrame`.
- `Handle` lifts a message to the two maps.
- The `Server` methods are proved to change the maps exactly as `Opened`, `Handle` and `Closed` say.

Lemmas over runs of messages (`Run`) state what a whole recording does: which requests are made, what is sent, and what the transcript becomes.

Where the code and its written description disagree, the model follows the code:

- A frame whose first byte is `{` but that is not JSON is answered with "Failed to process audio" and is not buffered (`BraceFrameIsDropped`).
- JSON with any `type` other than `"stop"` is buffered as audio (`ClassifyCases`).
- `stopRecording`'s `finally` clears `isProcessing` even on the early return when there is no recorder, so that path is not a pure no-op (`Recorder.StopRecording`).
- `resumeListening` restarts the clock only when `startTime` is truthy, so a start time of `0` counts as absent (`Truthy`).

## Model

| member | source | states |
|---|---|---|
| SessionStore.ClassifyCases | server/websocket.ts:32-34 | A frame is tried as JSON only when it starts with `{`. It is the stop signal exactly when it parses with `type` "stop" and unparsable exactly when JSON.parse throws. Every other frame, including JSON with another `type`, is audio. |
| SessionStore.ConcatSize | server/websocket.ts:37 | `Buffer.concat` holds every byte of every chunk, the first chunk first. |
| SessionStore.LastWindowSplit | server/websocket.ts:81 | `slice(-5)` is the last min(5, n) chunks, and what precedes it plus the window is the whole buffer. |
| SessionStore.WindowIsSuffix | server/websocket.ts:81 | A partial payload is the tail of the bytes a final over the same buffer would send. |
| SessionStore.StopFrameCases | server/websocket.ts:35-70 | A stop makes a final request exactly when the session exists and has chunks, and that request carries all the chunks. Success sends the provider's own text with isFinal true and removes the session. Failure sends "Failed to transcribe audio" and keeps the session. With no session or no chunks, nothing happens. |
| SessionStore.AudioFrameCases | server/websocket.ts:75-80 | Without a session an audio frame does nothing. With one, the frame is appended at the end of the chunks, and a request is made exactly when the new count is a multiple of 5. |
| SessionStore.AudioFramePartial | server/websocket.ts:80-105 | The partial request carries exactly the last 5 chunks. On success the transcript becomes old + " " + text and the whole transcript is sent with isFinal false. Otherwise the transcript stays and nothing is sent. |
| SessionStore.ReceiveCases | server/websocket.ts:29-114 | An unparsable frame changes nothing and gets one "Failed to process audio". At most one message goes out per frame. A request needs a session, and no frame creates one. |
| SessionStore.BraceFrameIsDropped | server/websocket.ts:108-113 | A `{`-leading frame that JSON.parse rejects is not buffered and is answered with "Failed to process audio". |
| SessionStore.Opened | server/websocket.ts:23-25 | Connect gives the id an empty chunk list and an empty transcript, leaves every other connection unchanged, and keeps the two maps' keys equal. |
| SessionStore.Closed | server/websocket.ts:117-121 | Close removes both entries and leaves every other connection unchanged. Closing an id that is already gone changes nothing. |
| SessionStore.Put | server/websocket.ts:60-61 | Writing a session back, or deleting it from both maps, touches only that id and keeps the maps' keys equal. |
| SessionStore.Handle | server/websocket.ts:29-115 | The message handler changes connection `id` as `Receive` says, leaves every other connection unchanged and keeps the maps' keys equal. An unparsable frame leaves the maps as they are. |
| SessionStore.NothingAfterFinal | server/websocket.ts:60-61 | After a delivered final the id is gone: a later audio frame changes nothing, and a later stop makes no request and sends nothing. |
| SessionStore.AudioRun | server/websocket.ts:75-102 | Audio frames on a live connection keep it live, as the reference `AudioSession` says. |
| SessionStore.AudioSessionChunks | server/websocket.ts:77 | After audio frames, the chunks are the old ones followed by every frame's bytes in arrival order. |
| SessionStore.AudioSessionTranscript | server/websocket.ts:94-95 | After audio frames, the transcript is the old one followed by the text of each successful partial, in order, each after one space. |
| SessionStore.AudioRunCalls | server/websocket.ts:80-102 | Audio frames make one partial request per multiple of 5 reached, all of them partial. They send one non-final transcription per successful partial. |
| SessionStore.WindowsReachedValue | server/websocket.ts:80 | The number of multiples of 5 reached while going from n to n + k chunks is (n + k)/5 − n/5. |
| SessionStore.PartialTextsAtMostWindows | server/websocket.ts:103-105 | A failed partial adds no text, so there are at most as many texts as windows reached. |
| SessionStore.RecordingThenStop | server/websocket.ts:35-61 | A fresh connection followed by audio and a successful stop makes ⌊n/5⌋ requests, all partial, and then one final request. The final request carries every frame's bytes in arrival order. The last message sent is the provider's final text, and the session is gone. |
| SessionStore.DisconnectBeforeWindow | server/websocket.ts:80-81 | A fresh connection that gets fewer than 5 frames before it closes makes no request and is sent nothing. |
| SessionStore.ProviderOnlyWhenRequested | server/websocket.ts:85-91 | When no request is made, the provider's answer makes no difference to the outcome. |
| SessionStore.Server.constructor | server/websocket.ts:19-20 | The server starts with both maps empty. |
| SessionStore.Server.Connect | server/websocket.ts:23-25 | The maps afterwards are `Opened` of the maps before. |
| SessionStore.Server.OnMessage | server/websocket.ts:29-115 | The new maps, the request made and the messages sent are `Handle` of the old maps. The maps' keys stay equal. |
| SessionStore.Server.OnStopSignal | server/websocket.ts:34-71 | The stop branch updates the maps as `StopFrame` says. |
| SessionStore.Server.OnAudioChunk | server/websocket.ts:74-107 | The audio branch updates the maps as `AudioFrame` says. |
| SessionStore.Server.Close | server/websocket.ts:117-121 | The maps afterwards are `Closed` of the maps before. |
| Text.NatToStringValue | app/transcriptions/page.tsx:94 | The decimal text of a number reads back as that number. |
| Text.Pad2IsPadStart | components/transcription-app.tsx:306-308 | The clock field is `n.toString().padStart(2, "0")`. |
| TranscriptionApp.FormatTimeRoundTrip | components/transcription-app.tsx:300-310 | The clock reads back, field by field, as ⌊ms/3600000⌋, ⌊ms/60000⌋ mod 60 and ⌊ms/1000⌋ mod 60. |
| TranscriptionApp.ClockParts | components/transcription-app.tsx:301-303 | Minutes and seconds are below 60, and hours·3600 + minutes·60 + seconds = ⌊ms/1000⌋. |
| TranscriptionApp.FormatTimeSameSecond | components/transcription-app.tsx:300-310 | Two times show the same clock exactly when they fall in the same whole second. |
| TranscriptionApp.FormatTimeWidth | components/transcription-app.tsx:305-309 | Below 100 hours the clock is exactly 8 characters, `HH:MM:SS`. |
| TranscriptionApp.FirstAlternatives | components/transcription-app.tsx:72-73 | The texts taken are the first alternative of each result, in result order. |
| TranscriptionApp.JoinedAppend | components/transcription-app.tsx:71-74 | Joining is piecewise: joining two batches gives the two joined texts one after the other. |
| TranscriptionApp.AssembleTranscript | components/transcription-app.tsx:71-74 | The loop's text is each result's first alternative followed by one space, in order (`Joined`). |
| TranscriptionApp.Upper | components/transcription-app.tsx:92 | An ASCII lower-case letter becomes its capital, and any other character is unchanged. |
| TranscriptionApp.CapitalizeFirstShape | components/transcription-app.tsx:91-93 | Only the first character can change, and afterwards it is not lower-case. Text that is empty or already capitalised is left as it is. |
| TranscriptionApp.CapitalizeFirstIdempotent | components/transcription-app.tsx:91-93 | Capitalising twice is capitalising once. |
| TranscriptionApp.ApplyAllFlags | components/transcription-app.tsx:127-208 | After any run of handlers, paused holds exactly when the last one was pause. Listening holds exactly when the last start or stop was a start; with neither, it keeps its old value. |
| TranscriptionApp.PauseThenResume | components/transcription-app.tsx:156-182 | Pause then resume puts an unpaused component back as it was. |
| TranscriptionApp.TranscriptionApp.constructor | components/transcription-app.tsx:52-58 | Not listening, not paused, an empty transcript, "Untitled Transcription", no start time, elapsed 0. |
| TranscriptionApp.TranscriptionApp.StartListening | components/transcription-app.tsx:127-154 | Nothing happens without a recogniser or when `start` throws. Otherwise the flags follow `Apply(Start)` and the start time is now − elapsed, so the clock continues from the elapsed time. |
| TranscriptionApp.TranscriptionApp.PauseListening | components/transcription-app.tsx:156-175 | The flags follow `Apply(Pause)` and the interval is cleared. Without a recogniser or on a throw, nothing changes. |
| TranscriptionApp.TranscriptionApp.ResumeListening | components/transcription-app.tsx:177-200 | The flags follow `Apply(Resume)`. The clock restarts from the elapsed time only when the start time is truthy. |
| TranscriptionApp.TranscriptionApp.StopListening | components/transcription-app.tsx:202-222 | The flags follow `Apply(Stop)` and the interval is cleared. Without a recogniser or on a throw, nothing changes. |
| TranscriptionApp.TranscriptionApp.OnError | components/transcription-app.tsx:98-108 | Only a "not-allowed" error stops listening, and then the flags are cleared and the interval is stopped. The start time, elapsed time, transcript, title and saving flag are kept. Any other error changes nothing. |
| TranscriptionApp.TranscriptionApp.Tick | components/transcription-app.tsx:138-140 | The elapsed time is now minus the start the interval captured. |
| TranscriptionApp.TranscriptionApp.OnResult | components/transcription-app.tsx:70-96 | The transcript becomes the joined first alternatives, passed through the punctuation step, with the first letter capitalised. |
| TranscriptionApp.TranscriptionApp.Reset | components/transcription-app.tsx:224-234 | The transcript is empty, the title is the default, elapsed is 0 and the start time is null. |
| TranscriptionApp.TranscriptionApp.Copy | components/transcription-app.tsx:236-251 | The clipboard is written exactly when the transcript is non-empty, and then with the transcript. |
| TranscriptionApp.TranscriptionApp.Save | components/transcription-app.tsx:253-298 | A row is inserted exactly when there is a user and a non-empty transcript. The row carries ⌊elapsed/1000⌋ seconds, and the saving flag is cleared afterwards. |
| AudioRecorder.FormatSecondsRoundTrip | components/audio-recorder.tsx:114-118 | The timer text reads back as ⌊s/60⌋ and s mod 60, and its seconds field is exactly two characters. |
| AudioRecorder.MinSecRoundTrip | components/audio-recorder.tsx:117 | `${mins}:${secs padded}` reads back as its two fields. |
| AudioRecorder.FormatSecondsInjective | components/audio-recorder.tsx:114-118 | Two second counts show the same text exactly when they are equal. |
| AudioRecorder.RecordClick | components/audio-recorder.tsx:215-223 | Recording gives stop. Otherwise, permission granted gives start, and unknown or denied permission gives request. Each case holds exactly under its condition. |
| AudioRecorder.Route | components/audio-recorder.tsx:45-66 | "transcription" goes to the callback with its text and isFinal, when there is a callback. "error" shows the message, or the default text when the message is empty. Anything else, unparsable data included, does neither. |
| AudioRecorder.ServerMessagesRouted | components/audio-recorder.tsx:48-61 | Every message the server sends is routed as meant: transcriptions reach the callback unchanged, and both server error texts are shown verbatim. |
| AudioRecorder.NonEmptyShape | components/audio-recorder.tsx:147-148 | Only non-empty chunks are kept, no more than arrived. A run without empty chunks is kept whole. |
| AudioRecorder.NonEmptyAppend | components/audio-recorder.tsx:147-148 | The filter works chunk by chunk, in arrival order. |
| AudioRecorder.StopMessageIsStopSignal | components/audio-recorder.tsx:164 | The bytes of `{"type":"stop"}` begin with `{` and are classified by the server as the stop signal. |
| AudioRecorder.Recorder.constructor | components/audio-recorder.tsx:14-22 | Not recording or processing, permission unknown, no chunks, timer 0. |
| AudioRecorder.Recorder.StartRecording | components/audio-recorder.tsx:136-191 | When the microphone is granted: a recorder, an empty chunk list, recording. Otherwise nothing changes. |
| AudioRecorder.Recorder.RequestPermission | components/audio-recorder.tsx:120-134 | The answer is recorded. When it is granted, recording starts as `StartRecording` says. |
| AudioRecorder.Recorder.OnDataAvailable | components/audio-recorder.tsx:145-157 | A non-empty chunk is appended, and it is also sent when the socket is open. An empty chunk changes nothing. |
| AudioRecorder.Recorder.OnRecorderStop | components/audio-recorder.tsx:159-168 | Exactly `{"type":"stop"}` is sent, and only on an open socket. |
| AudioRecorder.Recorder.StopRecording | components/audio-recorder.tsx:193-213 | Processing is false on every path. Recording ends unless there is no recorder or `stop` throws. |
| AudioRecorder.Recorder.Tick | components/audio-recorder.tsx:97-101 | While recording, the timer grows by exactly 1; otherwise it stays. |
| AudioRecorder.Recorder.HandleRecordClick | components/audio-recorder.tsx:215-223 | The action taken is `RecordClick` of the state.<br>Stop clears processing. It ends recording unless there is no recorder or `stop` throws, and it keeps the permission, the recorder and the chunks.<br>Start, when granted, begins recording with a recorder and an empty chunk list; when refused, it leaves them as they were. Either way the permission is kept.<br>Request records the answer. When both the answer and the start are granted, recording begins; otherwise recording, chunks and recorder are kept.<br>Only stop touches the processing flag. |
| TranscriptionsPage.DurationParts | app/transcriptions/page.tsx:89-91 | Minutes and seconds are below 60, and hours·3600 + minutes·60 + seconds = s. |
| TranscriptionsPage.FormatDurationRoundTrip | app/transcriptions/page.tsx:88-100 | The duration text reads back as (⌊s/3600⌋, ⌊(s mod 3600)/60⌋, s mod 60). |
| TranscriptionsPage.DurationTextRoundTrip | app/transcriptions/page.tsx:93-99 | Each of the three shapes, `{h}h {m}m {s}s`, `{m}m {s}s` and `{s}s`, reads back as its fields. |
| TranscriptionsPage.FormatDurationInjective | app/transcriptions/page.tsx:88-100 | Two durations show the same text exactly when they are equal. |
| TranscriptionsPage.FormatDurationFields | app/transcriptions/page.tsx:93-99 | The hour field appears exactly from 3600 s on and the minute field exactly from 60 s on. The text always ends in `s`. |
| TranscriptionsPage.RemoveIdGone | app/transcriptions/page.tsx:70 | No entry left carries the deleted id. |
| TranscriptionsPage.RemoveIdKeeps | app/transcriptions/page.tsx:70 | Every entry with another id is kept as many times as it occurred. |
| TranscriptionsPage.RemoveIdAppend | app/transcriptions/page.tsx:70 | The filter works piecewise, so the order of the entries is kept. |
| TranscriptionsPage.RemoveIdAbsent | app/transcriptions/page.tsx:70 | A list without the id is left as it is. |
| TranscriptionsPage.RemoveIdIdempotent | app/transcriptions/page.tsx:70 | Filtering twice is filtering once. |
| TranscriptionsPage.Page.constructor | app/transcriptions/page.tsx:25-27 | An empty list, loading, and nothing being deleted. |
| TranscriptionsPage.Page.FinishFetch | app/transcriptions/page.tsx:37-57 | On success the list is the returned rows, or empty when there are none. On error the list is kept. Loading is over either way. |
| TranscriptionsPage.Page.DeleteTranscription | app/transcriptions/page.tsx:62-86 | A successful delete leaves `RemoveId` of the list, and a failed one leaves the list unchanged. The deleting marker is null afterwards either way. |
| AudioUpload.SanitizeShape | components/upload/audio-upload.tsx:56 | The length is unchanged. Allowed characters stay in place and every other character becomes `_`. Only `[A-Za-z0-9._-]` comes out. |
| AudioUpload.SanitizeIdempotent | components/upload/audio-upload.tsx:56 | Sanitising twice is sanitising once. |
| AudioUpload.StoredNameShape | components/upload/audio-upload.tsx:56-57 | The stored name holds no `/`. It reads back as the timestamp followed by `-` and the sanitised name. The path starts with `userId/audio/`, and the rest of it is exactly the stored name, with no further `/`, so the file lands directly in the user's audio folder. |
| AudioUpload.StoredNameDistinct | components/upload/audio-upload.tsx:55-56 | The same file uploaded at two different timestamps gets two different names. |
| AudioUpload.Uploader.constructor | components/upload/audio-upload.tsx:18-20 | No file, not uploading, progress 0. |
| AudioUpload.Uploader.OnDrop | components/upload/audio-upload.tsx:24-38 | Only the first file counts. An empty drop, or a file over 10·1024·1024 bytes, keeps the selection. A file of at most that size, exactly that size included, is selected. |
| AudioUpload.Uploader.HandleUpload | components/upload/audio-upload.tsx:47-97 | With no file or no user, nothing happens. Otherwise the upload goes to `StoragePath`. Success clears the file and the progress, and uploading is false either way. |

## Left out

- The speech-to-text provider, the temporary files and `mkdir` in the server are not modelled. The provider's answer is a parameter, and each step returns the request it would have made.
- The temporary-file writes are assumed to succeed. In the source, a failed `writeFile` (websocket.ts lines 41 and 83) is answered with "Failed to process audio". For an audio frame, that answer comes after the chunk was already pushed.
- The WebSocket transport is not modelled. `ws.send` becomes the returned list of outbound messages, and the random client id is an argument.
- `JSON.parse` is not modelled on either side. Its outcome is given as a view of the parsed fields.
- Interleaving across `await` points is not modelled: each message is handled as one atomic step, as if the provider answered at once.
- SessionStore.SameSessions: the two maps keep the same keys only because of atomic handling. In the source, a partial that resolves after `close`, or after a delivered final, runs `transcriptionBuffers.set` (websocket.ts lines 94-95) after the deletes (lines 60-61 and 119-120). That re-creates a transcript entry with no chunk entry, which the model does not capture.
- Text is a sequence of Dafny characters, and each one is a Unicode scalar value, whereas JavaScript counts UTF-16 code units. So a character outside the Basic Multilingual Plane is one `_` after sanitising here, and two in JavaScript.
- Text.NatToString: it gives the plain decimal form, which is what `Number#toString` gives only below 10^21. From 10^21 on, JavaScript switches to exponent form.
- Frame bytes are the `Byte` newtype (0..255), not bit-vectors. `data.toString().startsWith("{")` is read as "the first byte is 0x7B", which is what UTF-8 decoding gives.
- TranscriptionApp.TranscriptionApp.OnResult: the regular-expression punctuation pass is a function parameter and is not modelled. Capitalisation is ASCII-only.
- TranscriptionApp.TranscriptionApp.StartListening: a second start in the source leaves the earlier interval running. The model keeps only the latest interval (`ticking`).
- TranscriptionApp.FormatTimeRoundTrip: milliseconds and seconds are natural numbers with integer division, so negative times and fractional inputs are not covered.
- `Date.now`, `setInterval` and `clearInterval` are not modelled. The current time is a parameter and a tick is a method.
- MediaRecorder, getUserMedia, the permission query and the recogniser are not modelled. Their outcomes (granted, throws, socket open) are parameters.
- AudioRecorder.Recorder.StartRecording: the `onRecordingStateChange` callback is not modelled.
- AudioRecorder.Recorder.StartRecording: `mediaRecorder.start(1000)` is assumed not to throw. If it did, the source would be left with a recorder and an empty chunk list but not recording, and the `granted` parameter cannot express that path.
- AudioRecorder.Route: `onTranscriptionComplete` is not invoked; routing returns the effect it would have.
- AudioRecorder.Recorder.Tick: `recordingTime` is never reset in the source, and the model keeps that.
- Toasts, the clipboard, the Supabase calls, the sign-in redirect and rendering are not modelled. The handlers return what they would write or upload, and success is a parameter.
- AudioUpload.Uploader.OnDrop: the drop zone's own MIME and size filtering is not modelled; only the handler's own size check is.
