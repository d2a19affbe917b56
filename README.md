# Live session engine of a spoken language-practice app, in Dafny

This project models the core of a browser app in which a learner holds a spoken
conversation with a remote voice agent. The model covers the `useLiveGemini`
hook and a small part of the history screen:

- **Transcript aggregator** (`Transcript`). `addMessage` folds speech-to-text
  fragments `(role, text, isFinal)` into an ordered list of chat messages. A
  fragment extends the last message when that message has the same role and is
  not final. Any other fragment opens a new message.
- **Playback scheduler** (`Playback`, `LiveGemini.Engine.Enqueue`,
  `Interrupt`, `OnEnded`). Each decoded chunk starts at `max(cursor, now)` on
  the output context's clock, and the cursor moves to the chunk's end. The set
  of live source nodes shrinks as their `onended` callbacks fire. An
  `interrupted` signal stops every live source, empties the set and puts the
  cursor back to 0.
- **Session lifecycle** (`LiveGemini.Engine`). `disconnect` releases every
  held object and may be called any number of times. `connect` is split at its
  two awaits: `Connect` runs up to the microphone request,
  `MicrophoneResolved` resumes after it, and `SessionResolved` resumes after
  the SDK's connect promise. The SDK callbacks `onopen`, `onmessage`,
  `onerror` and `onclose` are each applied as one atomic event.
- **History list** (`History`). `deleteSession` filters the list by id,
  stores the new list and clears the selection when it was the deleted
  session. On load, the stored list is sorted newest first.

Browser and SDK objects (audio contexts, the microphone stream, the script
processor, the analyser, the live session) are opaque `Handle` values. The
teardown calls made on them are appended to `releaseLog`. Audio source nodes
are objects of class `Playback.SourceNode`, one per chunk, with a `stopped`
flag. Time is `real` seconds on the output context's clock. The clock reading
`now` and each chunk's decoded duration are inputs. Message ids and timestamps,
which the source draws from `Math.random` and `new Date()`, are inputs too.
Local storage is a field of the history component.

Behaviours of the code a reader might not expect, all kept by the model:

- `interrupted` resets the cursor to 0. The next chunk still starts at `now`,
  because `now >= 0` (`Engine.Interrupt`).
- `disconnect` does not reset the cursor (`Engine.Disconnect` keeps
  `nextStartTime`). After a reconnect, the new output context's clock starts
  again from 0. Its first chunk therefore starts at the old cursor whenever
  the old cursor is ahead of `now`, and is delayed by the difference
  (`LiveGemini.ReconnectKeepsCursor`).
- `disconnect` does not null the analyser ref.
- `connect` does not first tear down a session that is already live. On its
  way to the microphone request it clears the error, sets `isConnecting`,
  overwrites the context refs without closing them and leaves `isConnected` as
  it was. Only its failure paths (a missing key, or a rejected microphone or
  session request) run `disconnect`, which then tears the live session down as
  well (`Engine.Connect`, `Engine.MicrophoneResolved`, `Engine.SessionResolved`).
- `turnComplete` clears `isSpeaking` even while sources are still scheduled,
  so speaking is not the same as "some source is live".
- `onmessage` sets `isSpeaking` before it awaits the audio decode, and the
  source joins the live set only after the decode. While a first chunk decodes,
  or after a decode that fails, the code is speaking with no live source. The
  model applies each message atomically and decoding cannot fail in it, so
  there the invariant "speaking implies some source is live" holds
  (`Engine.Valid`).
- The session ref is assigned after the SDK's promise resolves. This happens
  even when a teardown ran while connect was waiting, so that session is then
  held again (`Engine.SessionResolved`).
- Transcripts are always passed with `isFinal = false`. So from an empty list
  no message becomes final, and adjacent messages always differ in role
  (`Transcript.FoldOpenAlternates`, `Engine.Valid`).

## Model

| member | source | states |
|---|---|---|
| `Transcript.AddMessage` | hooks/useLiveGemini.ts:24-38 | When the last message has the same role and is not final, the length is unchanged, earlier messages are untouched, and the last message keeps its id and timestamp, gets text old ++ fragment and takes the given isFinal. Otherwise the old list is a prefix and exactly one message with the given role, text, isFinal, id and timestamp is appended. |
| `Transcript.AddMessageTexts` | hooks/useLiveGemini.ts:24-38 | One call adds its fragment text at the end of the concatenated transcript text and changes nothing else in it. |
| `Transcript.FoldTexts` | hooks/useLiveGemini.ts:24-38 | After any sequence of calls, the concatenated message texts equal the old texts followed by all fragment texts in delivery order: nothing is dropped or reordered. |
| `Transcript.AddOpenKeepsAlternation` | hooks/useLiveGemini.ts:24-38 | A non-final fragment keeps a list alternating in role and free of final messages. |
| `Transcript.FoldOpenAlternates` | hooks/useLiveGemini.ts:24-38 | With every fragment non-final, as the hook's callers pass them, no two adjacent messages share a role and no message is final, for every fold from such a list. |
| `Transcript.FoldFreezesFinal` | hooks/useLiveGemini.ts:27-36 | The count never shrinks and grows by at most one per fragment, and a final message keeps its index and contents through all later fragments. |
| `Transcript.FoldKeepsPrefix` | hooks/useLiveGemini.ts:24-38 | Any sequence of calls leaves every message but the last untouched, and the old last message keeps its id, role and timestamp while its text can only grow by extension: messages are only extended at the end or appended. |
| `Transcript.FoldAppend` | hooks/useLiveGemini.ts:24-38 | Delivering two batches of fragments one after the other gives the same transcript and the same fragment text as delivering their concatenation. |
| `Transcript.FinalityExample` | hooks/useLiveGemini.ts:24-38 | `(user,"Hel",false)`, `(user,"lo",true)`, `(model,"Hi",true)` give exactly the messages `user "Hello" final` and `model "Hi" final`. A later non-final user fragment keeps both and opens a third message, `user "Again"` open, with its own id and timestamp. |
| `Playback.StartTime` | hooks/useLiveGemini.ts:134-135 | The chosen start is no earlier than the cursor and no earlier than the clock, and equals one of them: it is `max(cursor, now)`. |
| `Playback.StartsNotEarly` | hooks/useLiveGemini.ts:134-140 | Every chunk starts no earlier than the clock reading at which it was enqueued, and no earlier than the initial cursor. |
| `Playback.StartsNoOverlap` | hooks/useLiveGemini.ts:134-140 | With non-negative durations, every chunk ends no later than any later chunk starts. |
| `Playback.StartsGapless` | hooks/useLiveGemini.ts:134-140 | A chunk enqueued before the previous one has ended starts exactly at its end. One enqueued after that starts at the clock's reading. |
| `Playback.StartsSnoc` | hooks/useLiveGemini.ts:134-140 | Enqueuing one more chunk appends its start, `max` of the cursor the earlier chunks left and the clock, and moves the cursor to that chunk's end. |
| `Playback.CursorAdvances` | hooks/useLiveGemini.ts:135-140 | The cursor never decreases, and after a non-empty batch it is the last chunk's end. |
| `Playback.SourceNode.constructor` | hooks/useLiveGemini.ts:136-139 | A new buffer source carries the decoded duration, is started at the given time and is not stopped. |
| `Playback.SourceNode.Stop` | hooks/useLiveGemini.ts:148 | After `stop()` the source is stopped. |
| `LiveGemini.ErrorText` | hooks/useLiveGemini.ts:163-166 | The recorded error is never empty: it is the error's message when there is one, else the fixed fallback text. |
| `LiveGemini.AddTranscription` | hooks/useLiveGemini.ts:126 | One guarded call adds nothing when the transcription is absent, and otherwise is the fold of the one non-final fragment of that role, adding its text and at most one message. |
| `LiveGemini.Transcribe` | hooks/useLiveGemini.ts:126-127 | One server message is exactly the fold of its present transcriptions: first the output transcription as a non-final Model fragment, then the input transcription as a non-final User fragment. So the agent's text and then the user's are added at the end of the transcript text, and at most two messages are added. |
| `LiveGemini.TranscribeKeepsAlternation` | hooks/useLiveGemini.ts:126-127 | Because both calls pass isFinal=false, one server message keeps the transcript alternating in role and free of final messages. |
| `LiveGemini.EnqueueSeries` | hooks/useLiveGemini.ts:130-141 | Enqueuing a run of chunks on the engine, with no interrupt between them, gives the nodes exactly the start times `Starts` computes from the old cursor, with their decoded durations. It leaves the cursor at `Cursor` of the run, so the no-overlap and gapless lemmas apply to the engine. |
| `LiveGemini.ReconnectKeepsCursor` | hooks/useLiveGemini.ts:40-66 | Disconnect never touches the cursor. After disconnect, a successful connect, onopen and one audio message, the first chunk starts at `max(old cursor, now)`, hence at the old cursor whenever that is ahead of the clock. |
| `LiveGemini.Engine.constructor` | hooks/useLiveGemini.ts:8-22 | The hook starts torn down: nothing held, all flags off, volume 0, empty transcript, no error, cursor 0. |
| `LiveGemini.Engine.StopSources` | hooks/useLiveGemini.ts:60 | Every live source has had `stop()` called. |
| `LiveGemini.Engine.ReleaseHandles` | hooks/useLiveGemini.ts:42-59 | Session, stream, processor and both contexts are closed in that order, each only if held, and their refs become null. |
| `LiveGemini.Engine.Disconnect` | hooks/useLiveGemini.ts:40-66 | Afterwards the session, stream, processor and both contexts are null and were released once each. Every live source is stopped and the set is empty. isConnected, isConnecting and isSpeaking are false and volume is 0. The error, transcript, cursor and analyser are untouched. Disconnecting a torn-down hook changes nothing. |
| `LiveGemini.Engine.ClearIndicators` | hooks/useLiveGemini.ts:61-65 | The source set is emptied, isConnected, isConnecting and isSpeaking become false and volume 0; on an already cleared hook nothing changes. |
| `LiveGemini.DisconnectTwice` | hooks/useLiveGemini.ts:40-66 | Two disconnects in a row release exactly what one releases and end torn down. |
| `LiveGemini.Engine.Connect` | hooks/useLiveGemini.ts:68-94 | The error is cleared first. An insecure context sets the secure-context error, leaves isConnecting false, and acquires and releases nothing. A missing, empty or `"undefined"` key sets the key error and runs disconnect, which releases everything held and stops every live source. Otherwise both contexts and the analyser are stored, isConnecting is true and connect waits for the microphone. |
| `LiveGemini.Engine.CreateContexts` | hooks/useLiveGemini.ts:85-96 | The new output and input contexts and the analyser are held, and connect then waits for the microphone; nothing else changes. |
| `LiveGemini.Engine.MicrophoneResolved` | hooks/useLiveGemini.ts:96-102 | A granted stream is stored and the SDK is asked for a channel; nothing else changes. A rejection records its message (or the fallback) and tears everything down: every held object is released and every live source stopped. Either way the transcript, the cursor and the analyser are kept. |
| `LiveGemini.Engine.SessionResolved` | hooks/useLiveGemini.ts:161-167 | The resolved session is stored, whatever happened meanwhile; nothing else changes. A rejection records its message (or the fallback) and tears everything down: every held object is released and every live source stopped. Either way the transcript, the cursor, the analyser and the channel request are kept. |
| `LiveGemini.Engine.OnOpen` | hooks/useLiveGemini.ts:112-124 | onopen sets isConnected true and isConnecting false, and holds the new script processor. |
| `LiveGemini.Engine.Enqueue` | hooks/useLiveGemini.ts:130-146 | The new source starts at `max(cursor, now)`, so no earlier than now and no earlier than any live source's end. The cursor becomes its end and never decreases. The source joins the live set and isSpeaking becomes true. Live sources stay pairwise non-overlapping (`Valid`). |
| `LiveGemini.Engine.Interrupt` | hooks/useLiveGemini.ts:147-152 | Every live source is stopped, the set is empty, the cursor is 0, isSpeaking is false, and the next chunk therefore starts at the clock's reading. |
| `LiveGemini.Engine.OnMessage` | hooks/useLiveGemini.ts:125-153 | Transcripts are folded in first. turnComplete clears isSpeaking. A chunk is enqueued exactly when it has audio and an output context exists. An interrupt in the same message is handled after the enqueue, so it also stops the new source. Connection state, error, volume, the release log, the analyser, every other ref and the channel request are untouched. |
| `LiveGemini.Engine.ApplyTranscripts` | hooks/useLiveGemini.ts:126-127 | The transcript becomes `Transcribe` of the old one and stays alternating and open; nothing else changes. |
| `LiveGemini.Engine.PlayAudio` | hooks/useLiveGemini.ts:128-152 | turnComplete clears isSpeaking. A chunk is enqueued exactly when it has audio and an output context exists, at `max(cursor, now)`. An interrupt then stops every source, the new one included, empties the set and zeroes the cursor. Only the speaking flag, the cursor and the source set change. |
| `LiveGemini.Engine.OnEnded` | hooks/useLiveGemini.ts:142-145 | onended removes only its own source, and clears isSpeaking exactly when the live set becomes empty. |
| `LiveGemini.Engine.OnError` | hooks/useLiveGemini.ts:154-158 | onerror records the connection-lost message and then tears down fully: every held object is released once and every live source stopped. The transcript, the cursor, the analyser and the channel request are kept. |
| `LiveGemini.Engine.OnClose` | hooks/useLiveGemini.ts:159 | onclose tears down fully, releasing every held object once and stopping every live source, and leaves the error slot, the transcript, the cursor, the analyser and the channel request unchanged. |
| `History.Without` | components/HistoryView.tsx:27 | No kept session has the deleted id. Every session with another id is kept. The list never grows. |
| `History.WithoutAbsent` | components/HistoryView.tsx:27 | Deleting an id no session carries leaves the list unchanged. |
| `History.WithoutIdempotent` | components/HistoryView.tsx:27 | Deleting the same id twice equals deleting it once. |
| `History.WithoutAppend` | components/HistoryView.tsx:27 | Deletion distributes over concatenation, so the kept sessions stay in their original relative order. |
| `History.Insert` | components/HistoryView.tsx:18 | Inserting into a newest-first list gives a newest-first list with the same sessions plus the new one. |
| `History.SortNewestFirst` | components/HistoryView.tsx:18 | The result is ordered by date with the newest first (for i < j, date[i] ≥ date[j]) and is a permutation of the input. |
| `History.InsertStable` | components/HistoryView.tsx:18 | An inserted session goes in front of every session of its own date, and the order among the others is kept. |
| `History.SortStable` | components/HistoryView.tsx:18 | The sort is stable, as the JavaScript array sort is: for every date, the sessions of that date keep their input order. |
| `History.HistoryView.constructor` | components/HistoryView.tsx:10-11 | The screen mounts with an empty list and no selection. |
| `History.HistoryView.Load` | components/HistoryView.tsx:13-23 | A stored list is shown newest first, as a permutation of what is stored, with sessions of equal date in their stored order. A missing or unparsable entry leaves the list as it was. |
| `History.HistoryView.Select` | components/HistoryView.tsx:60 | Clicking a session selects it. |
| `History.HistoryView.Back` | components/HistoryView.tsx:38 | The back button clears the selection. |
| `History.HistoryView.DeleteSession` | components/HistoryView.tsx:25-31 | The list loses exactly the sessions with that id, keeping the order of the rest. The stored copy equals the displayed list. The selection becomes none exactly when the selected session has that id, and is otherwise unchanged. |

## Left out

- PCM encoding and decoding (`createPcmBlob`, `decodeAudioData`, `base64ToUint8Array`) are in `utils/audioUtils`, which is not part of this model. A decoded chunk is only its duration, an input of at least 0.
- The microphone forwarding callback (hooks/useLiveGemini.ts:118-121) only relays frames into the SDK. It holds no state to model.
- The volume meter (hooks/useLiveGemini.ts:170-183) runs on animation frames and averages analyser floats. Only `disconnect` setting volume to 0 is modelled.
- Wiring of the audio graph (`connect` calls between nodes, the analyser's `fftSize`) and the SDK's session configuration text are plumbing for foreign APIs and are not modelled.
- Console logging and the swallowed exceptions of `stop()` and `close()` are not modelled: each teardown call is recorded as made.
- `Engine.OnMessage`: the await on decoding is not modelled; each message is applied atomically, so other events cannot interleave with it. The window in which the code is speaking while the chunk decodes, and a decode that rejects and leaves speaking on with no source, are therefore not captured.
- `Engine.Connect`: only one connect continuation is tracked. A second connect issued while an earlier one waits replaces the earlier continuation. A synchronous throw from the AudioContext constructors or `createAnalyser` is not modelled.
- A transcription object that carries no `text` is not modelled. In the source, a fragment that extends the last message would append the text "undefined" to it, and one that opens a new message would store an undefined text.
- Floating-point rounding of the timeline arithmetic is not modelled: times are exact reals, so `Math.max` and `nextStartTime += duration` (hooks/useLiveGemini.ts:135,140) are exact. `Playback.StartsNoOverlap`, `Playback.StartsGapless` and the non-overlap part of `Engine.Valid` therefore hold exactly in the model, but in the code only up to one rounding step per addition.
- Dates that fail to parse (NaN comparisons) are not modelled: dates are integers of milliseconds.
- Local storage and `JSON.parse`/`JSON.stringify` are modelled as a field holding either a parsed list or a malformed entry. The round trip through JSON text is taken as exact.
- App.tsx, the settings, summary and error-boundary screens, and the visualizer are rendering and are not part of this model. The `PastSession` type is imported from types.ts but is not declared in it; its fields here are the ones the history screen reads.
