# Voice receptionist call pipeline — a verified Dafny model

This project models one phone call's path through a voice receptionist for a
massage salon. A Twilio media stream carries the caller's μ-law audio. The
audio goes to a streaming speech-to-text server. A final transcript starts a
turn: the dialogue model analyses it, the reply is routed, and synthesized
speech is sent back on the same socket. Booking requests are checked against
the two staff members' Google calendars, and the caller is offered another
slot or another member when the first choice is taken.

Modules, one per source file:

- `AudioStates` (audio.state.machine.js): the four turn states.
- `SessionManagers` (websocket/session.manager.js): the per-call session object.
- `Sessions` (sessions.js): the call-id registry.
- `AudioCaptures` (websocket/audio.capture.js): the media-message filter, turn marks and rolling buffer.
- `VadProcessors` (websocket/vad.processor.js): blocks of 25 frames, the speech run and its two flush triggers.
- `AudioProcessors` (websocket/audio.processor.js): transcript overlap removal and `transcribe`'s result.
- `WhisperStreams` (websocket/whisper.stream.js): the client of the streaming transcription server.
- `TwilioWebSockets` (websocket/twilio.websocket.js): `handleTranscript` and the `start` event.
- `TtsHandlers` (websocket/tts.handler.js): the keep-alive and reply frames, the speaking flag and file clean-up.
- `AiRouter`, `AiContext`, `GptClient` (ai/ai.router.js, ai/ai.context.js, utils/gptClient.js): the decision logic around the dialogue model.
- `Schedulers` (websocket/scheduler.js): the booking dialogue.
- `ScheduleNode` (nodes/schedule.node.js): the calendar operations.
- `AudioBufferQueues` (utils/audio.buffer.queue.js): the audio FIFO.
- `Logging` (utils/log.js): the log line.
- `WhisperServer`, `FasterSttServer` (websocket/whisper.server.py, websocket/faster.stt.server.py): the two speech-to-text servers' batching loops.
- `SttWire`: what those two servers share.

Three helper modules support the rest:

- `Wrappers`: Option and Result.
- `Json`: JavaScript values, truthiness and property access.
- `Text`: trimming, splitting, joining and ASCII case mapping.

Objects whose fields the source updates in place are classes:

- the session, the registry, the capture, the VAD and the audio processor;
- the transcription stream, the queue and the connection;
- the media socket, the calendar and the speech sink.

Their methods state the whole new state. Pure logic is functions with
lemmas. Several loops are methods proved against specification functions:

- the two servers' batching loops;
- the day-by-day slot search;
- the per-day candidate walk.

External services are inputs:

- Every call to ffmpeg, the classifier and transcription HTTP services, OpenAI, ElevenLabs and Google Calendar is a parameter describing its outcome.
- Clocks are integer parameters: milliseconds for the pipeline and minutes for the calendar.
- Date parsing and ISO formatting are function parameters.

## Model

| member | source | states |
|---|---|---|
| SessionManagers.Merge | websocket/session.manager.js:89-92 | the merged context has exactly the keys of both; every key of the update wins, and every other key keeps its old value |
| Json.Spread | websocket/session.manager.js:91 | `{ ...v }` takes an object's own keys, an array's elements and a string's characters (code points) under their index keys, and nothing from null, undefined, numbers or booleans |
| Json.SpreadIndices | websocket/session.manager.js:91 | the keys spread from a sequence are exactly its rendered indices, each holding its element |
| Json.SpreadString | websocket/session.manager.js:91 | spreading "ab" adds the keys "0" and "1" |
| SessionManagers.Timings | websocket/session.manager.js:43-46 | the timing report has one entry per mark, each mark minus the `ws_start` baseline |
| SessionManagers.SessionManager.constructor | websocket/session.manager.js:6-34 | a new session starts LISTENING, with the call id '', staff 'Any', bookingConfirmed false, no speech segments, no marks and no remembered transcript |
| SessionManagers.SessionManager.Mark | websocket/session.manager.js:38 | only the named label changes, to the time given |
| SessionManagers.SessionManager.DumpTimingAndReset | websocket/session.manager.js:41-49 | reports every mark relative to `ws_start` (itself when it was missing or zero), `ws_start` reads 0, and the marks are emptied |
| SessionManagers.SessionManager.SetState | websocket/session.manager.js:53-58 | any state may follow any state; a transition is logged iff the state changes |
| SessionManagers.SessionManager.StartCall | websocket/session.manager.js:61-66 | stores the call id as given (any JSON value, or undefined) with the start time, and leaves the session LISTENING |
| SessionManagers.SessionManager.AddSpeechSegment | websocket/session.manager.js:68-72 | appends exactly one segment, earlier ones untouched |
| SessionManagers.SessionManager.SetTranscription | websocket/session.manager.js:74-77 | the transcription becomes the text |
| SessionManagers.SessionManager.SetRoutedToAI | websocket/session.manager.js:79-82 | the routed flag becomes the status |
| SessionManagers.SessionManager.SetFinalPrompt | websocket/session.manager.js:84-87 | the final prompt becomes the argument, possibly undefined |
| SessionManagers.SessionManager.UpdateContext | websocket/session.manager.js:89-92 | the context becomes the shallow merge with the update |
| SessionManagers.SessionManager.SetStreamSid | websocket/session.manager.js:95-98 | only the context's streamSid changes; an undefined stream id reads back as undefined |
| SessionManagers.SessionManager.CheckDuplicateTranscription | websocket/session.manager.js:101-110 | true iff the text equals the remembered one within 3000 ms; true leaves the memory as it was, false stores the text and time |
| SessionManagers.SecondCheckIsDuplicate | websocket/session.manager.js:101-110 | once a text is accepted, the same text again within 3000 ms is a duplicate |
| Sessions.SessionRegistry.constructor | sessions.js:8 | the registry starts empty |
| Sessions.SessionRegistry.GetSession | sessions.js:10-15 | returns the entry for the id; the first lookup adds exactly one fresh session (session id `aichi-` and the time, call id '', no start time, LISTENING, empty transcription, not routed, empty final prompt, no remembered transcript, initial context); otherwise the map is unchanged; no entry is ever changed or removed; distinct ids keep distinct sessions; any JSON value or undefined is a key |
| Sessions.LookupTwice | sessions.js:10-15 | two lookups of one id return the same object and add at most that id |
| AudioCaptures.MediaPayload | websocket/audio.capture.js:22-25 | a JSON null message throws at `data.event`; otherwise a payload goes on iff the message is a 'media' event whose `media?.payload` is truthy |
| AudioCaptures.FrameOf | websocket/audio.capture.js:27 | `Buffer.from` decodes a string payload, throws on a number or boolean, and converts an array or object by Node's rules |
| AudioCaptures.IngressCases | websocket/audio.capture.js:22-27 | a non-empty string payload is forwarded decoded; a null message, a number or a boolean payload throws |
| AudioCaptures.Tail | websocket/audio.capture.js:44-47 | the rolling buffer is at most the limit and no longer than its input |
| AudioCaptures.TailAppend | websocket/audio.capture.js:44-47 | trimming after every frame keeps the same bytes as trimming once at the end |
| AudioCaptures.AudioCapture.constructor | websocket/audio.capture.js:15-18 | empty buffer, not in a turn |
| AudioCaptures.AudioCapture.MarkTurn | websocket/audio.capture.js:30-38 | `ws_start` is marked only on a LISTENING frame while not in a turn; afterwards in-turn iff the session is LISTENING |
| AudioCaptures.AudioCapture.Remember | websocket/audio.capture.js:44-47 | the buffer becomes the last 1600 bytes of the old buffer plus the frame |
| AudioCaptures.AudioCapture.OnMessage | websocket/audio.capture.js:22-50 | the outcome is `Ingress`: dropped, forwarded or thrown; a message that is dropped or throws changes nothing; a forwarded frame is sent once while the stream is open, the turn is marked, and the buffer keeps the last 1600 bytes |
| AudioCaptures.AudioCapture.Reset | websocket/audio.capture.js:56-60 | empty buffer, not in a turn |
| AudioCaptures.BufferBound | websocket/audio.capture.js:10-12 | the buffer never exceeds 1600 bytes and holds everything received while fewer have arrived |
| VadProcessors.Flushed | websocket/vad.processor.js:75-93 | a flush with no speech buffered changes nothing; otherwise it empties the run and stops speaking |
| VadProcessors.StepFlushRule | websocket/vad.processor.js:48-71 | a block flushes iff the run was speaking and either 500 ms of silence followed speech or the run reached 10 s; the flushed segment is the whole run with this block; at most one flush; the speaking invariant holds |
| VadProcessors.StepTimes | websocket/vad.processor.js:48-56 | speechStartTime moves only on the not-speaking to speaking edge; lastSpeechTime is now exactly after a speech block |
| VadProcessors.NoSpeechNoFlush | websocket/vad.processor.js:59-71 | silence alone, from a run that is not speaking, never flushes or changes the run |
| VadProcessors.StepsKeepInvariant | websocket/vad.processor.js:48-71 | any sequence of blocks keeps "speaking iff speech is buffered", with at most one flush per block; the flushed segments followed by the buffered run are the starting run followed by the bytes of every speech block, in order |
| VadProcessors.StepKeepsSpeech | websocket/vad.processor.js:48-71 | one block: flushed bytes followed by the buffered run are the old run followed by the block if it is speech |
| VadProcessors.SileroErrorLog.constructor | websocket/vad.processor.js:11 | no error logged yet |
| VadProcessors.SileroErrorLog.Report | websocket/vad.processor.js:105-113 | an error is logged iff more than 1000 ms passed since the last logged one, which then becomes now |
| VadProcessors.VADProcessor.constructor | websocket/vad.processor.js:14-33 | empty frame and segment buffers, not speaking, zero times, a fresh audio processor |
| VadProcessors.VADProcessor.QuerySilero | websocket/vad.processor.js:96-114 | speech iff the classifier answered speech; a failure counts as silence and is logged iff more than 1000 ms passed since the last logged failure, which then becomes now; an answer leaves the error log alone |
| VadProcessors.VADProcessor.Flush | websocket/vad.processor.js:75-93 | empty buffer: nothing; otherwise the concatenated run goes to transcription once, the run is reset, and only a non-empty transcript with a session is stored and delivered |
| VadProcessors.VADProcessor.Book | websocket/vad.processor.js:48-56 | the run's bookkeeping for a classified block |
| VadProcessors.VADProcessor.Segment | websocket/vad.processor.js:48-71 | the run and the transcribed segments follow the flush rule; when a segment is flushed the transcriber's dedup memory and the session transcription follow its reply, otherwise both are unchanged |
| VadProcessors.VADProcessor.HandleAudioFrame | websocket/vad.processor.js:36-72 | fewer than 25 frames: only buffered; the 25th forms a block, empties the frame buffer and is classified and segmented by the flush rule; a failed conversion leaves the run alone; the dedup memory, the session transcription and the error log change only when a block is converted, segmented and flushed or classified with a failure |
| AudioProcessors.Deduplicated | websocket/audio.processor.js:40-45 | the result is never longer than the text |
| AudioProcessors.LastWordsIsSuffix | websocket/audio.processor.js:43 | the remembered ending is a suffix of the text |
| AudioProcessors.LastWordsIdempotent | websocket/audio.processor.js:43 | taking the last five words twice changes nothing |
| AudioProcessors.NoHistoryNoChange | websocket/audio.processor.js:41-42 | with nothing remembered the text passes unchanged |
| AudioProcessors.RepeatIsDropped | websocket/audio.processor.js:40-45 | an utterance of up to five words repeated right after itself is removed entirely |
| AudioProcessors.TranscribedTextIsTrimmed | websocket/audio.processor.js:30-37 | `transcribe` returns null or a non-empty trimmed text |
| AudioProcessors.AudioProcessor.constructor | websocket/audio.processor.js:6-8 | nothing remembered |
| AudioProcessors.AudioProcessor.Deduplicate | websocket/audio.processor.js:40-45 | returns the deduplicated text and remembers its last five words |
| AudioProcessors.AudioProcessor.Transcribe | websocket/audio.processor.js:17-38 | returns the reply's trimmed, deduplicated text, null when empty or on failure, and updates the memory accordingly |
| WhisperStreams.HandleMessage | websocket/whisper.stream.js:37-47 | `stt_done` is marked iff the message is JSON with a truthy is_final; onFinal gets the trimmed text iff it is non-empty |
| WhisperStreams.DeliveredTextIsTrimmed | websocket/whisper.stream.js:43-45 | the text delivered to onFinal is already trimmed |
| WhisperStreams.WhisperStream.constructor | websocket/whisper.stream.js:18-22 | no socket and nothing sent |
| WhisperStreams.WhisperStream.Connect | websocket/whisper.stream.js:25-54 | resolves iff the socket opened; rejects on error |
| WhisperStreams.WhisperStream.OnMessage | websocket/whisper.stream.js:37-47 | marks the session per HandleMessage and returns the text for onFinal |
| WhisperStreams.WhisperStream.SendFrame | websocket/whisper.stream.js:57-59 | a frame is sent only while the socket is open, otherwise dropped |
| WhisperStreams.WhisperStream.Close | websocket/whisper.stream.js:61 | an open or connecting socket moves to closing; no socket stays none |
| TwilioWebSockets.BindCall | websocket/twilio.websocket.js:76-81 | the call's session is fetched or created under the call id as given; exactly that entry is added if missing, no other session changes; it is marked `ws_start` on top of its earlier marks, started (start time now, LISTENING) and given the stream id (undefined included); its other fields are unchanged, or the initial ones when it is new |
| TwilioWebSockets.ReadStart | websocket/twilio.websocket.js:71-81 | a JSON null message, or a start event without a `start` object, throws; a start event yields its callSid and streamSid as they are, undefined or of any type; anything else is not a start |
| TwilioWebSockets.CallConnection.constructor | websocket/twilio.websocket.js:28-33 | no call, session or stream yet; a fresh capture and speaker |
| TwilioWebSockets.CallConnection.HandleTranscript | websocket/twilio.websocket.js:36-59 | a turn runs iff the text is non-empty, not a duplicate, and arrives in LISTENING; the duplicate check still records it; a dropped text changes nothing else; a turn goes PROCESSING then RESPONDING, merges updatedContext, speaks response_text once and stores it as the final prompt; the speaking flag is set iff audio went out and both temporary files are removed; no other session field changes |
| TwilioWebSockets.CallConnection.RunTurn | websocket/twilio.websocket.js:41-58 | the turn sequence and its effects in order, the context merged with `Spread(updatedContext)` |
| TwilioWebSockets.CallConnection.Think | websocket/twilio.websocket.js:41-50 | `stt_done`, PROCESSING, the merge of `Spread(updatedContext)` (an object's keys, a string's or array's index keys) and the transcription, then RESPONDING |
| TwilioWebSockets.CallConnection.Speak | websocket/twilio.websocket.js:53-58 | response_text is spoken once on the stream, then kept as the final prompt |
| TwilioWebSockets.CallConnection.SettleTimerFires | websocket/twilio.websocket.js:61-67 | back to LISTENING, and the marks hold only the new `ws_start` |
| TwilioWebSockets.CallConnection.OnMessage | websocket/twilio.websocket.js:71-89 | the outcome follows `ReadStart`: a message that is not a start, or that throws, changes nothing (connection, registry and every session); a start binds the call id and session as `BindCall` states whatever the id's type, attaches a transcriber to that session and forwards audio iff the transcriber connected |
| TwilioWebSockets.CallConnection.OnClose | websocket/twilio.websocket.js:91-95 | the transcriber's socket is closed |
| TtsHandlers.SpeakingMs | websocket/tts.handler.js:70-71 | the speaking time is ceil(len/8) + 100 ms |
| TtsHandlers.KeepAlivesShape | websocket/tts.handler.js:29-37 | keep-alives are empty outbound media frames, at most one per tick, none while the socket is closed |
| TtsHandlers.ReplyFramesShape | websocket/tts.handler.js:29-74 | keep-alives, then with audio and an open socket exactly one media frame with the whole payload and one 'endOfTTS' mark, last; otherwise keep-alives only |
| TtsHandlers.MediaSocket.constructor | websocket/tts.handler.js:51 | nothing sent, not speaking |
| TtsHandlers.MediaSocket.Send | websocket/tts.handler.js:53-68 | a frame is appended to what was sent |
| TtsHandlers.MediaSocket.SpeakingTimerFires | websocket/tts.handler.js:71 | the speaking flag is cleared |
| TtsHandlers.AudioDir.constructor | websocket/tts.handler.js:23-26 | no temporary files |
| TtsHandlers.AudioDir.UnlinkBoth | websocket/tts.handler.js:79 | both files are gone, a missing one is no error |
| TtsHandlers.TtsHandler.constructor | websocket/tts.handler.js:11-13 | nothing synthesized yet |
| TtsHandlers.TtsHandler.SpeakViaWebSocket | websocket/tts.handler.js:20-81 | the text is synthesized once; the frames sent are the reply frames; speaking is set iff the payload was sent; both temporary files are removed on every path |
| AiRouter.RouteDecision | ai/ai.router.js:4-22 | the route is the intent's own name for 'schedule', 'inquiry' and 'smalltalk', and 'fallback' for anything else; the reason is never empty |
| AiRouter.RouteNameRoundTrip | ai/ai.router.js:8-17 | an intent naming a route is routed there, for every route |
| AiRouter.FalsyIntentFallsBack | ai/ai.router.js:5 | a missing or falsy intent routes to 'fallback' |
| AiContext.FallbackReply | ai/ai.context.js:93-105 | the fallback object has exactly its eight keys |
| AiContext.AnalyzeContext | ai/ai.context.js:78-106 | any failure (call, parse, a null reply) yields the fallback; a well-being intention is overridden; any other parsed reply is returned unchanged |
| AiContext.FallbackFields | ai/ai.context.js:93-105 | intent 'fallback', the apology, nextState the current state or 'Initial Greeting', no availability check or booking, details carried over, the context with only userIntention replaced |
| AiContext.OverrideFields | ai/ai.context.js:83-87 | the override sets intent 'smalltalk', the fixed reply and userIntention 'smalltalk', keeps every other key, and does not fire again on its own result |
| GptClient.Settle | utils/gptClient.js:43-50 | success iff there is a first choice, whose content is the reply; missing usage gives 0 and 0 tokens |
| GptClient.Request | utils/gptClient.js:14-54 | at most retry + 1 attempts; every attempt but the last was a 5xx error; the last was not retryable; the result is the last attempt's |
| GptClient.DefaultBudget | utils/gptClient.js:20-40 | with the default budget one 5xx is retried once and the second outcome is final |
| Schedulers.Speaker.constructor | websocket/scheduler.js:42 | nothing spoken |
| Schedulers.Speaker.Say | websocket/scheduler.js:42 | one utterance appended |
| Schedulers.Interpolate | websocket/scheduler.js:33 | a string value interpolates as itself |
| Schedulers.Literal | websocket/scheduler.js:70-74 | every field reads back as given, undefined ones included |
| Schedulers.RequestOf | websocket/scheduler.js:12 | the request carries the pending duration string |
| Schedulers.Preferred | websocket/scheduler.js:13 | staff 'Any' means Angie, anything else is kept |
| Schedulers.Alt | websocket/scheduler.js:14 | the alternative is Bell iff the preferred member is Angie, else Angie; it is always a known calendar |
| Schedulers.StaffChoice | websocket/scheduler.js:13-14 | for Any, Angie or Bell the preferred member is known and differs from the alternative |
| Schedulers.BookingOutcome | websocket/scheduler.js:31-41 | a free member is booked for the requested slot or the insert is refused |
| Schedulers.Attempt | websocket/scheduler.js:19-90 | the try block fails iff there is no token, the staff is unknown, or the date or duration does not parse |
| Schedulers.Fallback | websocket/scheduler.js:43-85 | a booking here is with the alternative member, who is free; an offer comes only when the alternative is busy |
| Schedulers.NextOffer | websocket/scheduler.js:65-84 | an offered slot has the requested length and the preferred member is free for it |
| Schedulers.AttemptConfirmed | websocket/scheduler.js:24-59 | a booking is for the requested interval with a free member: the preferred one, or the alternative when the preferred one is busy |
| Schedulers.AttemptOffered | websocket/scheduler.js:43-75 | an offer comes only when both are busy, and is the preferred member's free slot of the requested length from the search |
| Schedulers.ContextAfter | websocket/scheduler.js:5-93 | a skipped or rejected call leaves the context; otherwise isBookingInProgress is false at the end |
| Schedulers.ConfirmedContext | websocket/scheduler.js:32-59 | a booking sets pendingScheduling null, bookingConfirmed true and currentState 'Booking Confirmed' |
| Schedulers.RefusedContext | websocket/scheduler.js:39-63 | a refused insert changes only the flag |
| Schedulers.FailedContext | websocket/scheduler.js:87-93 | an exception drops the pending request |
| Schedulers.OfferContext | websocket/scheduler.js:70-82 | an offer drops the request, awaits an answer and records the alternative with the original duration |
| Schedulers.OfferedSlotContext | websocket/scheduler.js:67-74 | the offered alternative is the preferred member at the slot's time and date |
| Schedulers.OtherMemberContext | websocket/scheduler.js:77-82 | without a slot the other member is offered at the requested date and time |
| Schedulers.Said | websocket/scheduler.js:42-89 | exactly one utterance, on the call's stream, iff the call gets past the guard |
| Schedulers.EventsAfter | nodes/schedule.node.js:147-153 | a booking adds one event to that member's calendar; nothing else changes any calendar |
| Schedulers.Book | websocket/scheduler.js:25-42 | books through the calendar, updates the context on success and speaks the follow-up |
| Schedulers.TryBooking | websocket/scheduler.js:21-86 | the outcome is Attempt's; on success the context update and speech follow it; a failure says nothing and changes nothing here; `RunAttempt` apologizes |
| Schedulers.TryOthers | websocket/scheduler.js:43-85 | the outcome is Fallback's, with its update, speech and calendar |
| Schedulers.Offer | websocket/scheduler.js:65-84 | the outcome is NextOffer's, with its update and speech |
| Schedulers.HandleScheduling | websocket/scheduler.js:5-94 | the whole call: the guard, the destructuring, the try, catch and finally; context, speech and calendars follow the outcome |
| Schedulers.RunAttempt | websocket/scheduler.js:19-93 | the flag is set, the try block runs, a failure apologizes and drops the request, and the flag is cleared |
| Schedulers.SomeContained | websocket/scheduler.js:100-111 | true iff some keyword occurs in the text |
| Schedulers.ContextAfterAnswer | websocket/scheduler.js:103-122 | acceptance moves the alternative into pendingScheduling and clears the alternative and awaiting; refusal clears all three; anything else leaves the context |
| Schedulers.AnswerSpeech | websocket/scheduler.js:111-122 | a refusal and an unclear answer each speak their fixed text; acceptance says nothing |
| Schedulers.HandleConfirmation | websocket/scheduler.js:96-123 | the answer is classified from the lower-cased text; the context and speech follow it |
| Schedulers.AffirmativeWins | websocket/scheduler.js:103 | an affirmative keyword accepts even next to a negative one |
| Schedulers.EmptyNameAcceptsAll | websocket/scheduler.js:103 | an alternative with an empty staff name accepts every answer |
| Schedulers.AcceptedOfferIsRequest | websocket/scheduler.js:104-109 | an accepted offer becomes a usable request for the same member, date, time and duration |
| Schedulers.AcceptedOfferIsNextRequest | websocket/scheduler.js:65-109 | after an offer and its acceptance the next booking proceeds with the offered member and time and the original duration |
| ScheduleNode.Listed | nodes/schedule.node.js:48-56 | the listing holds exactly the events overlapping the window |
| ScheduleNode.SomeOverlapping | nodes/schedule.node.js:58-62 | true iff some event starts before the end and ends after the start |
| ScheduleNode.FindSame | nodes/schedule.node.js:128-131 | finds an event with the same start and end, or none exists |
| ScheduleNode.SummaryOf | nodes/schedule.node.js:140 | a given summary is kept, an empty one becomes 'Massage Appointment' |
| ScheduleNode.FirstFree | nodes/schedule.node.js:86-96 | a slot found has the requested length and is free |
| ScheduleNode.FirstFreeNone | nodes/schedule.node.js:84-99 | nothing is found iff every candidate is busy |
| ScheduleNode.FirstFreeIsFirst | nodes/schedule.node.js:91-93 | the slot found is a candidate, and every earlier candidate is busy |
| ScheduleNode.FirstCheckAtTen | nodes/schedule.node.js:80-82 | the first candidate is 10:00 on the start day, or the next day when that is before the start |
| ScheduleNode.DaySlotsShape | nodes/schedule.node.js:87-95 | a day's candidates step by 30 minutes from its first, each starting before 22:00 and passing the source's end-of-day test (end hour below 22, or 22 with minute 0) |
| ScheduleNode.DaySlotsCount | nodes/schedule.node.js:87-95 | a day from 10:00 tries at most 24 candidates |
| ScheduleNode.ScanCount | nodes/schedule.node.js:84-99 | the search tries at most 24 candidates per day |
| ScheduleNode.ScanInHours | nodes/schedule.node.js:80-97 | for a duration under 14 hours every candidate lies within 10:00 to 22:00 |
| ScheduleNode.LongSlotWraps | nodes/schedule.node.js:87-89 | the end test reads the hour of day only, so a 14-hour slot from 10:00 passes it |
| ScheduleNode.ScanKeepsFound | nodes/schedule.node.js:84-99 | searching more days neither changes a slot already found nor loses candidates |
| ScheduleNode.BookedIsTaken | nodes/schedule.node.js:58-64 | a booked interval overlaps itself and is no longer free |
| ScheduleNode.ListedOverlapIsOverlap | nodes/schedule.node.js:48-64 | listing the window and re-checking overlap is the plain question "does any event overlap" |
| ScheduleNode.DuplicateIsListed | nodes/schedule.node.js:117-131 | the listing a minute either side of the start holds every event with the same start |
| ScheduleNode.Calendar.constructor | nodes/schedule.node.js:12-15 | the calendars and token as given |
| ScheduleNode.Calendar.CheckAvailability | nodes/schedule.node.js:38-69 | no token and unknown staff throw; otherwise available iff no event overlaps |
| ScheduleNode.Calendar.ScanDay | nodes/schedule.node.js:86-96 | one day's walk returns the first free candidate of that day |
| ScheduleNode.Calendar.FindNextAvailable | nodes/schedule.node.js:72-100 | no token throws; otherwise the first free candidate of the 7-day search, or null; unknown staff throws at its first check |
| ScheduleNode.Calendar.ScanDays | nodes/schedule.node.js:84-99 | the day loop returns the first free candidate of the days searched |
| ScheduleNode.Calendar.ScheduleAppointment | nodes/schedule.node.js:102-158 | no token and unknown staff throw and change nothing; a duplicate or a refused insert reports failure and inserts nothing; otherwise exactly one event is added |
| ScheduleNode.BookThenCheck | nodes/schedule.node.js:38-158 | after a successful booking the booked interval is no longer available |
| AudioBufferQueues.AudioBufferQueue.constructor | utils/audio.buffer.queue.js:4-6 | an empty queue |
| AudioBufferQueues.AudioBufferQueue.Enqueue | utils/audio.buffer.queue.js:8-10 | appends the chunk; size grows by one |
| AudioBufferQueues.AudioBufferQueue.Dequeue | utils/audio.buffer.queue.js:12-17 | empty: null and no change; otherwise the oldest chunk, removed |
| AudioBufferQueues.AudioBufferQueue.Peek | utils/audio.buffer.queue.js:19-21 | the head iff there is one and it is truthy, else null |
| AudioBufferQueues.AudioBufferQueue.Clear | utils/audio.buffer.queue.js:23-25 | empty, size 0 |
| AudioBufferQueues.AudioBufferQueue.Size | utils/audio.buffer.queue.js:27-29 | the number of chunks queued |
| AudioBufferQueues.AudioBufferQueue.IsEmpty | utils/audio.buffer.queue.js:31-33 | empty iff size is 0 |
| AudioBufferQueues.FifoOrder | utils/audio.buffer.queue.js:8-17 | whatever the queue held, enqueueing chunks and dequeueing until empty yields the old contents followed by the chunks, in order |
| AudioBufferQueues.EnqueueAll | utils/audio.buffer.queue.js:8-10 | enqueueing a sequence appends it at the back, in order |
| AudioBufferQueues.Drain | utils/audio.buffer.queue.js:12-17 | dequeueing until empty yields the queue's contents front to back |
| Logging.Priority | utils/log.js:2 | the four known levels have priorities 0 to 3; any other name has none |
| Logging.TagClose | utils/log.js:7 | a tag match is a leading '[' and the first ']' after a non-empty tag |
| Logging.Suffix | utils/log.js:10-11 | the session suffix is present iff the session or call id is non-empty |
| Logging.Log | utils/log.js:1-13 | a line is written iff the level's priority reaches LOG_LEVEL's (default info); it is timestamp, tag, message and suffix |
| Logging.FilterMonotone | utils/log.js:5 | a line written at one level is written at any higher known level |
| Logging.DefaultLevel | utils/log.js:3-5 | without LOG_LEVEL, exactly info, warn and error are written |
| Logging.TaggedMessage | utils/log.js:7-9 | a leading tag is shown as the tag and removed with the whitespace after it |
| Logging.UntaggedMessage | utils/log.js:8-10 | an untagged message is shown unchanged under the upper-cased level |
| SttWire.Payloads | websocket/faster.stt.server.py:43-44 | only binary messages carry audio |
| SttWire.SendFor | websocket/faster.stt.server.py:66-69 | a message is sent iff the transcript is non-empty |
| SttWire.RepliesAreFinal | websocket/whisper.server.py:20-22 | every reply is a final result with non-empty text, at most one per batch |
| SttWire.Advance | websocket/faster.stt.server.py:43-48 | the batches and buffer are always exactly the audio received so far |
| SttWire.BatchingShape | websocket/whisper.server.py:15-23 | the batching fold loses and reorders no byte, every batch reaches the threshold, and the leftover is short of it |
| SttWire.BatchingNext | websocket/faster.stt.server.py:41-48 | the fold follows the message stream one message at a time; text frames change nothing |
| SttWire.TwoFullPayloadsTwoBatches | websocket/whisper.server.py:15-23 | a batch is cut at the first payload that reaches the threshold: two full payloads make two batches |
| SttWire.Seal | websocket/whisper.server.py:18-23 | sealing the buffer as a batch sends that batch's reply |
| WhisperServer.Handler | websocket/whisper.server.py:8-23 | every batch has at least 8000 bytes; the batches plus the dropped leftover are exactly the bytes received; the leftover is short; the replies are the batches'; the batches and leftover are exactly those of `Batching`, each cut at the first message that reaches 8000 bytes |
| WhisperServer.Step | websocket/whisper.server.py:12-23 | handling one message keeps the batching invariant |
| WhisperServer.Receive | websocket/whisper.server.py:15-23 | appends the data and seals the buffer once it reaches 8000 bytes |
| FasterSttServer.Handler | websocket/faster.stt.server.py:37-55 | the batches are those of `Batching` at 16000 bytes, followed by the leftover only on a clean close; then every byte reaches transcription once, in order; every batch but that leftover has at least 16000 bytes; no batch is empty; replies are delivered only for the sealed batches; the handler raises iff the close was abnormal or the leftover's transcript is non-empty |
| FasterSttServer.Step | websocket/faster.stt.server.py:41-48 | handling one message keeps the batching invariant |
| FasterSttServer.Receive | websocket/faster.stt.server.py:43-48 | appends the data and seals the buffer once it reaches 16000 bytes |
| FasterSttServer.Disconnect | websocket/faster.stt.server.py:51-54 | on a clean close a non-empty leftover is transcribed exactly once and sending its non-empty reply raises on the closed socket; an abnormal close raises before any transcription |

## Left out

- External processes and services are not modelled: ffmpeg (μ-law conversion and `toMulaw`), the classifier and transcription HTTP servers, OpenAI, ElevenLabs and Google Calendar. Each is a parameter giving its outcome.
- The acoustic models and the floating-point audio conversions of the Python servers are the `model` parameter.
- JavaScript `Date`, time zones and ISO strings are not modelled. Calendar times are integer minutes on a local clock; date parsing (`parseDate`) and the ISO date of a slot (`isoDate`) are parameters.
- The duplicate-event check compares `dateTime` strings in the source. It is modelled as equality of integer minutes.
- All-day calendar events (no `dateTime`) are not modelled.
- Concurrency, promises and the interleaving of socket events are not modelled. Timers (`setTimeout`, `setInterval`) are explicit steps: a list of ping ticks, `SettleTimerFires` and `SpeakingTimerFires`.
- Log output, timestamps, `toFixed` durations and seconds in speech segments are not modelled. `Log` takes the timestamp and `LOG_LEVEL` as parameters.
- Object key order is not modelled: contexts are maps, so the order of `Object.entries` in the timing report is lost.
- Base64 decoding, and Node's conversion of an array or object payload by `Buffer.from`, are parameters of `AudioCapture.OnMessage`.
- A throw in a socket listener ends that message's handling and changes nothing in the model; what Node then does with the uncaught exception (audio.capture.js) or the unhandled rejection (twilio.websocket.js) is not modelled.
- Sessions.SessionRegistry.GetSession: call ids are compared by value. A JavaScript `Map` compares an object or array key by identity, so a `start` event whose callSid is an object or array gets a new session every time, where the model reuses one.
- SessionManagers.SessionManager.SetStreamSid: an undefined stream id is kept as an absent context key rather than a key holding undefined; reading it, spreading the context and `JSON.stringify` see no difference.
- Case mapping is ASCII-only.
- Json.Spread: strings are sequences of Unicode code points, not UTF-16 code units, so spreading a string gives a character outside the Basic Multilingual Plane one index key where JavaScript gives its two surrogates one key each.
- VadProcessors.VADProcessor.Flush: the `onSpeechDetected` callback is taken to return. In the source a throwing callback skips the reset that follows it, so the run and the speaking flag survive (the transcription already stored) and the next trigger transcribes the same segment again; the model always empties the run and stops speaking. `VadProcessors.VADProcessor.Segment` and `VadProcessors.VADProcessor.HandleAudioFrame` inherit this through the flush rule.
- JSON numbers are integers.
- `endCallSummary` (websocket/session.manager.js:113-126) only formats a log line and is not modelled.
- The legacy `handleScheduling` of nodes/schedule.node.js:160-189 and the OAuth routes are not part of this model; `authorize` is the calendar's `tokenStored` flag.
- `routeDecision`'s result is discarded by `handleTranscript`, so the connection model does not call it.
- GptClient.Request: the session hooks `markGPTStart`/`markGPTDone` and `delta_ms` are not modelled. SessionManager has no such methods, and the latency is a clock reading.
- Schedulers.HandleScheduling: the source calls `ttsHandler.generateAndSendSpeech`, which `TTSHandler` does not define. The model treats the speech sink as an abstract `Speaker` that records what it is asked to say, and does not model the TypeError such a call would raise.
- Schedulers.HandleScheduling: calendar failures other than a missing token, an unknown staff member and a refused insert (network errors, for example) are not modelled.
- ScheduleNode.Calendar.FindNextAvailable: the end-of-day test reads only the hour of day, so durations of 14 hours or more wrap past midnight. The model keeps the source's behaviour and states it in `LongSlotWraps`; `ScanInHours` is proved only for shorter durations.
- Staff lookups do not model JavaScript prototype keys (`STAFF_CALENDARS['toString']`): only Angie and Bell are known.
- The `error` event of the media socket only logs and is not modelled.
- TwilioWebSockets.CallConnection.OnMessage: the model handles one `start` per connection. In the source a repeated start adds another capture listener on the same AudioCapture, so frames go to every connected stream and are buffered once per listener, and a failed reconnect keeps forwarding to the earlier stream; the model replaces the stream and the capturing flag.
- AudioCaptures.AudioCapture.OnMessage: the DEBUG_AUDIO raw dump of every frame to `raw_dump.ulaw` is a file side effect and is not modelled.
- FasterSttServer.Disconnect: the exception raised after the loop (abnormal close, or the reply on the closed socket) is an outcome flag; what the server library does with it is not modelled.
