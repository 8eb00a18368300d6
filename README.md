# AuthenTik — a verified model of the application logic

AuthenTik is a news-verification platform written in React with TypeScript.
Journalists publish posts that an AI screening step scores. Readers like
posts and comment on them. An AI lab answers grounded queries and analyses
media. A media workbench generates images and videos. A live studio streams
interview audio from the Gemini Live API and plays it back.

This Dafny project models the logic behind those screens. Calls to the
provider, the browser and the audio hardware are replaced by plain inputs.

- `wrappers.dfy` (`Wrappers`): the `Option` type.
- `text.dfy` (`Text`): the JavaScript string behaviour the code relies on.
  - `undefined` inside a template literal is rendered as the text "undefined".
  - `trim` removes the ECMA-262 whitespace and line-terminator characters.
  - `split(',')[1]` is the piece of text between the first and the second comma.
  - `startsWith`.
  - `Number.prototype.toString` for integers.
- `types.dfy` (`Types`): the records and enumerations of `types.ts`.
- `gemini_service.dfy` (`GeminiService`): covers `services/geminiService.ts`.
  - Each provider reply is an input value, and a call that throws is `Threw`.
  - `JSON.parse` is a function parameter.
  - It models the request each service function builds, including the defaults of omitted arguments.
  - It models the screening fallback and grounding-source defaulting.
  - `generateImage`'s loop that stops at the first part with inline data.
  - `generateVideo`'s poll loop, over a finite stream of operation states.
  - The download-URL assembly.
- `create_post.dfy` (`CreatePost`): the post form (class `Form`).
  - From `handleSubmit`: the submit guard, the status threshold, the new post with its two-entry audit trail, and the form reset.
- `post_card.dfy` (`PostCard`): the card's local state (class `Card`).
  - The like toggle and the invariant it keeps.
  - Adding a comment, guarded by `trim`.
  - `formatNumber`.
- `ai_assistant.dfy` (`AiAssistant`): the AI lab (class `Assistant`).
  - The routing of a task to a service call, where a file decides before the mode.
  - The data-URL split.
  - How the response list, the query and the attachment change on success and on failure.
- `media_workbench.dfy` (`MediaWorkbench`): the workbench (class `Workbench`).
  - The image/video dispatch and the "1:1" to "16:9" remap for video.
  - The result slot and the loading flag.
- `live_interview_studio.dfy` (`LiveInterviewStudio`): the studio (class `Studio`).
  - The `decode`/`encode` loops between binary strings and byte arrays.
  - The de-interleaving loops of `decodeAudioData`.
  - The playback scheduler: each chunk starts at `max(nextStart, now)`, after which the counter advances by the chunk's duration.
  - The live set of sources.
  - The transcript, and session start and stop.
  - The schedule is also proved as a function over a run of chunks: every chunk starts after it arrives, there is no overlap, arrival order is kept, there is no gap while audio is queued, and the counter never goes back.

Each asynchronous handler is modelled as one atomic step. The post form
captures the title, content and type at submit time and publishes them two
seconds later. `Form.Submit`, `Form.OnScreened` and `Form.Publish` model those
steps one by one, and `Form.HandleSubmit` composes them.

Where the code behaves otherwise than one might read it, the model follows the code:

- `startSession` never resets the playback counter, although each session gets a new output context whose clock starts again at 0. `Studio.StartSession` models the start as written. `Studio.StartSessionCorrected` is the start with the counter reset. `Studio.RestartAndPlay` and `Studio.RestartCorrectedAndPlay` show how the two differ (see Findings).

- `stopSession` stops every live source, but it does not empty the live set: only each source's `onended` removes it. It also does not stop later messages from being scheduled.
- `onerror` shows the error banner without marking the studio inactive.
- A new session keeps the old transcript.
- `startSession` creates the output context before it asks for the microphone. So a failed start still leaves a context, and later messages play through it.
- `analyzeMedia`'s default prompt replaces only an omitted argument. The lab always passes the query, which may be empty, so from the lab the default is never used.
- The transcription request labels every audio file "audio/wav", whatever its real type.
- `executeTask` has a 'media' mode which, without a file, makes no call and prepends an empty (`undefined`) entry to the response list. No mode button selects 'media' (components/AiAssistant.tsx:75-77), so this branch cannot be reached from the interface. The model keeps it because `executeTask` handles it.
- The bytes of an audio message are only read after the counter has been moved up to `max(nextStart, now)`. In the source, when the payload then fails to decode, the handler rejects but the counter stays moved. This happens when `atob` throws, when the byte length is odd (so `Int16Array` throws), or when there are zero frames (so `createBuffer` throws).

## Model

| member | source | states |
|---|---|---|
| Text.TrimBlank | components/PostCard.tsx:53 | `trim` gives the empty string exactly when every character is whitespace |
| Text.Trim | components/PostCard.tsx:53 | `trim` leaves the slice between a whitespace prefix and a whitespace suffix, and that slice neither starts nor ends with whitespace |
| Text.SplitSecond | components/AiAssistant.tsx:23 | `split(sep)[1]` is undefined exactly when there is no separator; otherwise it is the text after the first separator up to the next separator or the end, and contains no separator |
| Text.DataUrlPayload | components/AiAssistant.tsx:23 | splitting `header,payload` at the comma yields exactly the payload |
| Text.NatToStringCanonical | components/PostCard.tsx:48 | the decimal rendering of a natural number is a non-empty digit string without a leading zero that reads back as the number |
| Text.IntToString | components/PostCard.tsx:48 | `toString` of an integer is a minus sign exactly for a negative number, followed by a non-empty run of digits |
| Text.IntToStringRoundTrip | components/PostCard.tsx:48 | `toString` of any integer, negative ones included, reads back as that integer |
| GeminiService.FirstCandidate | services/geminiService.ts:55 | `candidates?.[0]` exists exactly when the list is present and non-empty |
| GeminiService.ScreenRequest | services/geminiService.ts:10-20 | title and content are sent to "gemini-3-flash-preview" |
| GeminiService.SearchRequest | services/geminiService.ts:46-51 | the query is sent to "gemini-3-flash-preview" |
| GeminiService.QuickRequest | services/geminiService.ts:137-142 | the prompt is sent to "gemini-2.5-flash-lite-latest" |
| GeminiService.MapsRequest | services/geminiService.ts:62-72 | the retrieval location is sent exactly when one is given, with latitude from `lat` and longitude from `lng` (model "gemini-2.5-flash") |
| GeminiService.ImageRequest | services/geminiService.ts:83-90 | an omitted aspect becomes "1:1" and an omitted size "1K"; given ones pass through (model "gemini-3-pro-image-preview") |
| GeminiService.VideoRequest | services/geminiService.ts:102-108 | one 720p video, aspect "16:9" unless given (model "veo-3.1-fast-generate-preview") |
| GeminiService.AnalyzeRequest | services/geminiService.ts:184-193 | the default instruction replaces only an omitted prompt; the media and its type pass through (model "gemini-3-pro-preview") |
| GeminiService.TranscribeRequest | services/geminiService.ts:167-177 | the audio is labelled "audio/wav" and paired with the fixed transcription instruction (model "gemini-3-flash-preview") |
| GeminiService.ReasonRequest | services/geminiService.ts:122-130 | the prompt goes to the reasoning model with a thinking budget of 32768 (model "gemini-3-pro-preview") |
| GeminiService.SpeechRequest | services/geminiService.ts:149-160 | the text is spoken with voice "Kore" (model "gemini-2.5-flash-preview-tts") |
| GeminiService.JsonText | services/geminiService.ts:36 | the parsed text is the trimmed reply text, or "{}" when it is absent or blank |
| GeminiService.BlankTextParsesEmptyObject | services/geminiService.ts:36 | a reply text of whitespace only is parsed as "{}" |
| GeminiService.ScreenContent | services/geminiService.ts:17-40 | the fallback when the call throws or the text is not JSON; otherwise the parsed object, unchecked (it may itself equal the fallback) |
| GeminiService.FallbackShape | services/geminiService.ts:39 | the fallback has score 50, a non-empty analysis, no sources and the single flag "Service Error" |
| GeminiService.ScreenEmptyText | services/geminiService.ts:36 | an absent or blank reply yields an object with none of the four fields, which is not the fallback |
| GeminiService.GroundingSources | services/geminiService.ts:53-56 | the first candidate's grounding chunks when present, otherwise the empty list |
| GeminiService.Grounded | services/geminiService.ts:74-77 | a grounded answer is the reply text with the first candidate's citations |
| GeminiService.GroundingIgnoresLaterCandidates | services/geminiService.ts:55 | candidates after the first never contribute citations |
| GeminiService.ImageUrl | services/geminiService.ts:93-96 | null exactly when no part has inline data; otherwise the PNG data URL of the first part that has it |
| GeminiService.ResponseParts | services/geminiService.ts:93 | the parts of the first candidate; none when there is no candidate or it has no parts |
| GeminiService.GenerateImage | services/geminiService.ts:93-96 | the loop with early return yields exactly `ImageUrl` of the first candidate's parts |
| GeminiService.SpeechData | services/geminiService.ts:161 | the inline data of the first part only; absent when that part has none |
| GeminiService.DownloadUrl | services/geminiService.ts:115-116 | the URL is the link (or "undefined") followed by "&key=" and the key (or "undefined") |
| GeminiService.FirstSettled | services/geminiService.ts:110-113 | the number of polls: no operation before it settles, and the one at it does |
| GeminiService.VideoResult | services/geminiService.ts:110-116 | still polling exactly when no operation settles; otherwise the first one to settle decides: a failure when it threw, and its download URL when it is done |
| GeminiService.GenerateVideo | services/geminiService.ts:102-117 | the while loop polls exactly `FirstSettled` times and resolves to `VideoResult`: still polling, failed, or the download URL of the settled operation |
| GeminiService.DoneAfterThreePolls | services/geminiService.ts:110-113 | an operation done at the third poll is polled three times and yields its download URL |
| CreatePost.DerivedStatus | components/CreatePost.tsx:38 | AI Screened (shown as "AI Screened") exactly when the score is present and above 70, otherwise Pending (shown as "Pending Verification") |
| CreatePost.AuditTrail | components/CreatePost.tsx:44-59 | two entries, "Identity Verified" then "AI Screening", the second carrying the screening analysis |
| CreatePost.NewPost | components/CreatePost.tsx:30-60 | the post has the draft's title, content and type, the derived status, zero likes and views, not liked, no evidence, the two fixed sources and the audit trail |
| CreatePost.FailedScreeningIsPending | components/CreatePost.tsx:38 | when the screening call throws or returns non-JSON, the post is Pending |
| CreatePost.EmptyScreeningIsPending | components/CreatePost.tsx:38 | an empty screening reply gives a Pending post with no audit details |
| CreatePost.CredibleReplyIsScreened | components/CreatePost.tsx:38 | a reply scoring 85 gives an AI Screened post |
| CreatePost.Form.constructor | components/CreatePost.tsx:12-16 | the form starts empty, not submitting, type News, no analysis |
| CreatePost.Form.SetTitle | components/CreatePost.tsx:96 | the title becomes the typed value |
| CreatePost.Form.SetContent | components/CreatePost.tsx:105 | the content becomes the typed value |
| CreatePost.Form.SetContentType | components/CreatePost.tsx:84 | the content type becomes the chosen value |
| CreatePost.Form.Submit | components/CreatePost.tsx:18-22 | nothing happens exactly when title or content is empty; otherwise the form is submitting and the values are captured |
| CreatePost.Form.OnScreened | components/CreatePost.tsx:25-26 | the screening result is stored |
| CreatePost.Form.Publish | components/CreatePost.tsx:29-67 | the emitted post is `NewPost` of the captured draft; title, content, the flag and the analysis are reset |
| CreatePost.Form.HandleSubmit | components/CreatePost.tsx:18-67 | no screening is requested and nothing changes when a field is empty; otherwise the submitted values are screened and published and the form is reset |
| PostCard.Toggle | components/PostCard.tsx:37-44 | `liked` flips, and the count goes up by one from unliked or down by one from liked |
| PostCard.ToggleKeepsOthers | components/PostCard.tsx:37-44 | a toggle keeps `likeCount - (liked ? 1 : 0)` |
| PostCard.ToggleTwice | components/PostCard.tsx:37-44 | two toggles restore both the flag and the count |
| PostCard.ToggleTimesInvariant | components/PostCard.tsx:37-44 | after any number of toggles the others' likes are unchanged; an even number restores the state, an odd one equals one toggle |
| PostCard.FormatNumber | components/PostCard.tsx:46-49 | the plain decimal below 1000; at or above 1000 a string of thousands with one decimal ending in "k" |
| PostCard.FormatNumberThousands | components/PostCard.tsx:47 | the text before "k" reads as a number of thousands within 0.05 thousand of the input |
| PostCard.FormatNumberSmall | components/PostCard.tsx:48 | below 1000 the rendering reads back as the number |
| PostCard.NewComment | components/PostCard.tsx:55-61 | the comment holds the untrimmed text with the fixed author, role and timestamp |
| PostCard.Card.constructor | components/PostCard.tsx:31-34 | missing comments read as none and a missing `likedByMe` as not liked; the others'-likes invariant is established |
| PostCard.Card.HandleLike | components/PostCard.tsx:37-44 | the state becomes `Toggle` of the old one and the others'-likes invariant is kept |
| PostCard.Card.SetNewComment | components/PostCard.tsx:283 | the input box holds the typed text |
| PostCard.Card.HandleAddComment | components/PostCard.tsx:51-65 | refused exactly when the input is whitespace only, changing nothing; otherwise the new comment goes first, the old ones follow in order and the box is cleared |
| AiAssistant.AttachmentOf | components/AiAssistant.tsx:18-27 | the attachment keeps the file's type, and its data is undefined exactly when the data URL has no comma |
| AiAssistant.AttachmentOfDataUrl | components/AiAssistant.tsx:23 | the attachment of a well-formed data URL is exactly its payload |
| AiAssistant.Dispatch | components/AiAssistant.tsx:34-47 | an audio file is transcribed and any other file analysed with the query as prompt; without a file the mode picks search, maps or reasoning; no call exactly for 'media' without a file |
| AiAssistant.FileOverridesMode | components/AiAssistant.tsx:34-41 | with a file attached the mode makes no difference |
| AiAssistant.EmptyQueryAnalysisPrompt | components/AiAssistant.tsx:39 | a file analysed with an empty query gets the empty prompt, not the default instruction |
| AiAssistant.ResultOf | components/AiAssistant.tsx:36-46 | the list entry of each call kind: grounded answer, reasoning text, transcription, analysis, or nothing |
| AiAssistant.Assistant.constructor | components/AiAssistant.tsx:11-15 | empty query, search mode, not loading, no responses, no file |
| AiAssistant.Assistant.SetQuery | components/AiAssistant.tsx:125 | the query becomes the typed value |
| AiAssistant.Assistant.SetMode | components/AiAssistant.tsx:75-77 | the mode becomes the chosen one |
| AiAssistant.Assistant.ClearFile | components/AiAssistant.tsx:118 | the attachment is removed |
| AiAssistant.Assistant.HandleFileChange | components/AiAssistant.tsx:18-27 | a selected file replaces the attachment; no selection changes nothing |
| AiAssistant.Assistant.ExecuteTask | components/AiAssistant.tsx:29-57 | nothing runs exactly without query and file; the `Dispatch` call is made; on success the result is prepended and query and file cleared, on failure all three are kept; loading ends either way |
| MediaWorkbench.VideoAspect | components/MediaWorkbench.tsx:22 | "1:1" becomes "16:9"; every other aspect passes through |
| MediaWorkbench.GenerateRequest | components/MediaWorkbench.tsx:18-24 | an image takes aspect and size as chosen; a video takes the remapped aspect, one 720p video |
| MediaWorkbench.VideoNeverSquare | components/MediaWorkbench.tsx:22 | a video request never asks for "1:1" |
| MediaWorkbench.Workbench.constructor | components/MediaWorkbench.tsx:7-12 | empty prompt, image, "1:1", "1K", not loading, no result |
| MediaWorkbench.Workbench.SetPrompt | components/MediaWorkbench.tsx:54 | the prompt becomes the typed value |
| MediaWorkbench.Workbench.SetKind | components/MediaWorkbench.tsx:40-43 | the kind becomes the chosen one |
| MediaWorkbench.Workbench.SetAspect | components/MediaWorkbench.tsx:63 | the aspect becomes the chosen one |
| MediaWorkbench.Workbench.SetSize | components/MediaWorkbench.tsx:74 | the size becomes the chosen one |
| MediaWorkbench.Workbench.HandleGenerate | components/MediaWorkbench.tsx:14-30 | nothing happens without a prompt; the result becomes the image URL (or null) or the settled video URL, and is kept when the call throws; loading ends once the call settles |
| LiveInterviewStudio.BytesToBinary | components/LiveInterviewStudio.tsx:35 | the string built from bytes holds only byte-sized characters |
| LiveInterviewStudio.BinaryToBytes | components/LiveInterviewStudio.tsx:17-18 | one byte per character, and a character below 256 is stored unchanged |
| LiveInterviewStudio.BytesRoundTrip | components/LiveInterviewStudio.tsx:33-37 | decoding the encoding of any bytes gives them back |
| LiveInterviewStudio.BinaryRoundTrip | components/LiveInterviewStudio.tsx:15-20 | encoding the decoding of a binary string gives it back |
| LiveInterviewStudio.Decode | components/LiveInterviewStudio.tsx:15-20 | a fresh array as long as the string, byte `i` the code of character `i` modulo 256 |
| LiveInterviewStudio.Encode | components/LiveInterviewStudio.tsx:33-37 | the string whose character `i` is byte `i` |
| LiveInterviewStudio.SampleCount | components/LiveInterviewStudio.tsx:23 | an Int16 view exists exactly for an even byte length, with half as many samples |
| LiveInterviewStudio.FrameIndexInRange | components/LiveInterviewStudio.tsx:28 | the index of frame `i` of channel `c` lies inside the samples |
| LiveInterviewStudio.Channel | components/LiveInterviewStudio.tsx:24-28 | a channel has `len / numChannels` frames |
| LiveInterviewStudio.DecodeAudioData | components/LiveInterviewStudio.tsx:22-31 | one buffer per channel, each equal to `Channel` of the interleaved samples |
| LiveInterviewStudio.ChannelsPartitionSamples | components/LiveInterviewStudio.tsx:28 | frame `i` of channel `c` is sample `i * numChannels + c`, always below the sample count |
| LiveInterviewStudio.ChunkStart | components/LiveInterviewStudio.tsx:75 | a chunk starts no earlier than the clock and no earlier than the counter, at one of the two |
| LiveInterviewStudio.Starts | components/LiveInterviewStudio.tsx:75-81 | a run of chunks gets one start time per chunk |
| LiveInterviewStudio.NextAfter | components/LiveInterviewStudio.tsx:75-81 | the counter after a run of chunks is where the last chunk, as `Starts` places it, ends; an empty run leaves it as it was |
| LiveInterviewStudio.StartsAfterArrival | components/LiveInterviewStudio.tsx:75-80 | no chunk of a run starts before it arrives |
| LiveInterviewStudio.ConsecutiveStarts | components/LiveInterviewStudio.tsx:75-81 | each chunk starts no earlier than the previous one ends, and exactly then when the previous audio is still queued |
| LiveInterviewStudio.NextNeverDecreases | components/LiveInterviewStudio.tsx:75-81 | with non-negative durations the counter never goes back |
| LiveInterviewStudio.BackToBackChunks | components/LiveInterviewStudio.tsx:75-81 | a 0.5 s chunk arriving 0.1 s after a 1 s chunk starts when the first ends |
| LiveInterviewStudio.AppendFragment | components/LiveInterviewStudio.tsx:68-70 | the old transcript is a prefix, followed by a space and the fragment text (or "undefined") |
| LiveInterviewStudio.TranscriptAfter | components/LiveInterviewStudio.tsx:68-70 | after a run of fragments, the last fragment is appended last to the transcript of the ones before it; no fragments leave the transcript as it was |
| LiveInterviewStudio.TranscriptGrowsInOrder | components/LiveInterviewStudio.tsx:69 | fragments only extend the transcript, and each earlier transcript is a prefix of later ones |
| LiveInterviewStudio.ChunkDuration | components/LiveInterviewStudio.tsx:23-25 | a chunk plays `bytes / 2 / 24000` seconds, defined exactly for an even, non-zero byte length |
| LiveInterviewStudio.PartDuration | components/LiveInterviewStudio.tsx:76 | an audio part has a positive duration exactly when it decodes to an even, non-zero byte count |
| LiveInterviewStudio.Studio.constructor | components/LiveInterviewStudio.tsx:7-13 | inactive, no error, empty transcript, no session or context, counter 0, nothing live |
| LiveInterviewStudio.Studio.StartSession | components/LiveInterviewStudio.tsx:39-103 | active and error-free exactly when microphone and connection succeed, otherwise the start error; a context always exists; the counter, the transcript and the live set are kept |
| LiveInterviewStudio.Studio.StartSessionCorrected | components/LiveInterviewStudio.tsx:39-103 | the same start, with the counter at the new clock's origin |
| LiveInterviewStudio.Studio.RestartAndPlay | components/LiveInterviewStudio.tsx:46-81 | after the start as written, a decodable chunk arriving at `now` starts at `max(old counter, now)`, so it waits `old counter - now` when the old counter is later |
| LiveInterviewStudio.Studio.RestartCorrectedAndPlay | components/LiveInterviewStudio.tsx:46-81 | after the corrected start, a decodable chunk arriving at `now` on the new clock starts at `now` |
| LiveInterviewStudio.Studio.Schedule | components/LiveInterviewStudio.tsx:77-83 | a new source starts at the counter, joins the live set, and the counter advances by its duration |
| LiveInterviewStudio.Studio.Plays | components/LiveInterviewStudio.tsx:72-73 | audio is scheduled only for a message with a non-empty payload while an output context exists |
| LiveInterviewStudio.Studio.PlayAudio | components/LiveInterviewStudio.tsx:74-83 | the counter moves to `max(counter, now)`; a payload that decodes becomes a new live source starting there and advances the counter by its duration; one that does not leaves only the moved counter |
| LiveInterviewStudio.Studio.OnMessage | components/LiveInterviewStudio.tsx:67-85 | a fragment is appended; audio with a context moves the counter to `max(counter, now)` and, when it decodes, starts a new live source there and advances the counter; anything else changes neither the counter nor the live set |
| LiveInterviewStudio.Studio.OnEnded | components/LiveInterviewStudio.tsx:83 | only the ended source leaves the live set, which stays the set of sources created and not yet ended |
| LiveInterviewStudio.Studio.StopSession | components/LiveInterviewStudio.tsx:105-109 | the session is closed if there is one, every live source is stopped, the studio is inactive; counter, transcript and live set are kept |
| LiveInterviewStudio.Studio.OnError | components/LiveInterviewStudio.tsx:87 | the session error is shown |

## Left out

- Provider and SDK calls (`generateContent`, `live.connect`, `generateVideos`, `getVideosOperation`): their replies are inputs, and a throw is `Threw`.
- `JSON.parse` is a parameter. Only its two outcomes under the response schema are modelled: an object, or a syntax error.
- The screening prompt text and the live session configuration: these are literal strings, each sent once.
- Microphone capture, `AudioContext` creation, the script-processor loop and `sendRealtimeInput`: all are browser device I/O. Whether the microphone was granted and the connection made are inputs of `Studio.StartSession`.
- Base64 (RFC 4648, section 4): `atob` and `btoa` are left out. Their output is an input (`AudioPart.binary`, None when `atob` throws). Only the loops around them are modelled.
- The byte order of `Int16Array` over the decoded bytes is left out, because it depends on the platform.
- DecodeAudioData: integer samples stand for the Float32 channel data. The `/ 32768` scaling is left out, and so is the `* 32768` conversion on capture.
- DecodeAudioData: the frame count is `len / numChannels` rounded down. The source's division is exact only for divisible lengths. The studio always passes one channel, where the two agree.
- FormatNumber: `toFixed(1)` rounds the binary double nearest to `num / 1000`, which can fall on either side of a tie. The model rounds ties up. FormatNumberThousands states only the ±0.05-thousand bound, which holds either way. The exponent notation of very large numbers is also left out.
- Timers: the 2-second delay of `handleSubmit`, the toast timeout and the 10-second poll interval are not modelled. Each handler is one atomic step. `now` is an input of `Studio.OnMessage`.
- The microtask yield inside `onmessage` is not modelled: each message is one atomic step.
- Assistant.ExecuteTask: one atomic step, so overlapping tasks are not modelled. Pressing Enter (components/AiAssistant.tsx:126) runs `executeTask` with no `loading` guard. Two overlapping tasks each prepend to the response list of their own render (line 49), so one of the results is lost. The first task's `finally` (line 55) also clears `loading` while the second is still running.
- GeminiService.ScreenContent: `getAi()` (services/geminiService.ts:11) runs before the `try`. If constructing the client throws, `screenContent` rejects instead of returning the fallback. Then `handleSubmit` (components/CreatePost.tsx:25) never resets the form, and `isSubmitting` stays true. The model's `ScreenContent` always returns a value, and `Form.HandleSubmit` always resets the form.
- Card.constructor: `post.likes || 0` (components/PostCard.tsx:34) also replaces a missing or `NaN` like count with 0. In the model `Post.likes` is always an integer, for which that default changes nothing.
- GenerateVideo: a provider that never reports done would keep polling forever. The model sees a finite stream of operations, and reports `StillPolling` when none settles.
- `Math.random` ids are inputs.
- Clipboard, alerts, `FileReader`, `Audio` playback, and the text-to-speech button of the lab are host APIs. `HandleFileChange` receives the data URL the reader would deliver.
- A message with a `modelTurn` but no `parts` makes the handler throw before any audio is scheduled. The model reads a missing audio part as no audio.
- The submit, send and generate buttons are the predicates `Form.SubmitDisabled`, `Assistant.SendDisabled` and `Workbench.GenerateDisabled`, with no contract of their own.
- `Studio.OnError` does not model the event object, which the handler ignores.
- `console.error` logging is left out throughout.
- App.tsx, the navigation, the icons and all markup are left out.

## Findings

| source | as written | input that shows it | evidently intended | confidence | as-written member | corrected member |
|---|---|---|---|---|---|---|
| components/LiveInterviewStudio.tsx:46-47 | `startSession` makes a new output `AudioContext`, whose clock starts again at 0, but keeps `nextStartTimeRef` from the previous session | a first session whose playback is scheduled up to 30 s, so the counter is 30.0; stop, start again, and a chunk arrives at clock 0.5 | the counter restarts with the new context, so the first chunk plays on arrival (at 0.5, not at 30.0) | not executed | LiveInterviewStudio.Studio.RestartAndPlay | LiveInterviewStudio.Studio.RestartCorrectedAndPlay |
