# N:OVA avatar core in Dafny

N:OVA is a chat avatar. The user types a message in the browser. The Node server
asks a local language model for an *avatar directive*: the text to speak, an
emotion, a gesture, an expression, a micro-timeline of Live2D parameter
animations and speech hints. The directive is validated against a zod schema.
The server retries once with a stricter note and a lower temperature, and falls
back to a fixed apology after that. It stores the exchange in a per-session
history of the last eight messages and returns the directive. A second endpoint
relays text to a speech service. When no service is configured or the service
fails, it answers with silent WAVE audio of a placeholder length. In the
browser, the avatar controller applies the directive to the Live2D model and
runs its timeline with timers and animation frames. A lip-sync helper turns the
playing audio's waveform into a mouth opening.

The project models that core:

| module | file | models |
|---|---|---|
| `Json` | Json.dfy | parsed JSON values and JavaScript property access |
| `DirectiveSchema` | DirectiveSchema.dfy | the directive schema: typed directive, decoder (`safeParse`), encoder (`res.json`) |
| `JsonText` | JsonText.dfy | `extractJson` and the `extractJson(raw) ?? raw` fallback |
| `Generation` | Generation.dfy | `generateDirective` with its retry, and `fallbackDirective` |
| `Sessions` | Sessions.dfy | `sessions`, `MAX_HISTORY`, `updateSession` |
| `Bytes`, `SilentWav` | Bytes.dfy, SilentWav.dfy | `buildSilentWav`, byte by byte |
| `Routes` | Routes.dfy | the decisions of `POST /api/chat` and `POST /api/tts` |
| `Avatar` | AvatarController.dfy | the `AvatarController` class, its driver and the browser timer queue |
| `Audio` | LipSync.dfy | the `LipSync` class and its Web Audio calls |

Effects outside the core are parameters:
- The language-model call is a function `llm` from a request to a reply or an error.
- `JSON.parse` is a function `parse` that yields None where it throws.
- The speech service is a function `synthesize`, and its URL is `ttsUrl`.
- `crypto.randomUUID()` is `freshId`.
- `performance.now()` is the argument `now`.
- The analyser's waveform is the argument `waveform`, and `Math.sqrt` is the argument `sqrt`.

The Live2D driver is a `Driver` object that records every call it receives.
The browser's `setTimeout`/`requestAnimationFrame` queue is a `Scheduler`
object that maps pending handles to their callbacks. Running a callback is
`RunTimeout` or `RunAnimationFrame`.

The controller's parameter state has a pure meaning, `AnimState`: the last
written value and the animation in flight, per parameter. Each controller method
is proved to move that state exactly as a pure function says (`Animate`,
`ApplyParams`, `Step`), and the properties are proved about those functions.

## Model

| member | source | states |
|---|---|---|
| DirectiveSchema.ParseDirective | server/server.js:148 | a directive the schema yields comes from an object whose spoken text, emotion name, intensity (in [0, 1]) and expression are the directive's own; a missing timeline yields the empty one |
| DirectiveSchema.DecodeGesture | server/server.js:39-42 | a gesture the schema yields is the one its object's motion and priority keys spell out |
| DirectiveSchema.DecodeTts | server/server.js:58-62 | the speech hints the schema yields are the ones its object's three keys spell out, null included |
| DirectiveSchema.DecodeFrame | server/server.js:46-55 | a frame the schema yields has its object's non-negative time and one parameter per element of its params array |
| DirectiveSchema.DecodeParams | server/server.js:48-54 | an accepted parameter array yields one parameter per element |
| DirectiveSchema.DecodeFrames | server/server.js:44-56 | an accepted timeline yields one frame per element |
| DirectiveSchema.DecodeString | server/server.js:27 | a string is accepted exactly when the value is a JSON string, and it decodes to that string |
| DirectiveSchema.DecodeNumber | server/server.js:51 | a number is accepted exactly when the value is a JSON number, and it decodes to that number |
| DirectiveSchema.DecodeNullableString | server/server.js:40-43 | an accepted nullable string is the JSON the decoded value is sent as (null for None) |
| DirectiveSchema.DecodeNullableNumber | server/server.js:60-61 | an accepted nullable number is the JSON the decoded value is sent as (null for None) |
| DirectiveSchema.DecodeEmotion | server/server.js:28-37 | an accepted emotion is the name of the emotion it decodes to |
| DirectiveSchema.DecodeIntensity | server/server.js:38 | an accepted intensity is a number in [0, 1], kept as given |
| DirectiveSchema.DecodeNonNegative | server/server.js:47 | an accepted time or fade is a non-negative number, kept as given |
| DirectiveSchema.DecodeTimeline | server/server.js:44-57 | a missing timeline decodes to the empty one; an accepted timeline is an array with one frame per element |
| DirectiveSchema.EncodeDirective | server/server.js:224 | `res.json` sends an object with exactly the schema's seven keys, the timeline always present |
| DirectiveSchema.EmotionAcceptedIff | server/server.js:28-37 | the emotion is accepted exactly when it is one of the eight listed names, and it decodes to the emotion of that name |
| DirectiveSchema.PriorityAcceptedIff | server/server.js:41 | the gesture priority is accepted exactly when it is idle, normal or force, and it decodes to that priority |
| DirectiveSchema.IntensityAcceptedIff | server/server.js:38 | intensity is accepted exactly when it is a number in [0, 1], and it is kept as given |
| DirectiveSchema.NullableAcceptedIff | server/server.js:40-43 | a nullable string or number field accepts null (as None) or a value of its type and nothing else; a missing key is rejected |
| DirectiveSchema.ParamAcceptedIff | server/server.js:49-53 | a timeline parameter is accepted exactly when it has a string id, a numeric value and a non-negative numeric fade |
| DirectiveSchema.ParamsAcceptedIff | server/server.js:48-54 | a parameter array is accepted exactly when every element is, and then it decodes element by element, keeping order and length |
| DirectiveSchema.FramesAcceptedIff | server/server.js:44-56 | a timeline array is accepted exactly when every frame is, and then it decodes frame by frame, keeping order and length |
| DirectiveSchema.TimelineDefaultsToEmpty | server/server.js:57 | a missing `microTimeline` is treated exactly like an empty one |
| DirectiveSchema.ParamsSound | server/server.js:48-54 | every parameter the schema accepts has a non-negative fade |
| DirectiveSchema.FramesSound | server/server.js:44-56 | every frame the schema accepts has a non-negative time and valid parameters |
| DirectiveSchema.ParseSound | server/server.js:26-63 | every directive the schema accepts satisfies all the schema's numeric constraints |
| DirectiveSchema.ParamRoundTrip | server/server.js:49-53 | a valid parameter sent as JSON decodes to itself |
| DirectiveSchema.ParamsRoundTrip | server/server.js:48-54 | a list of valid parameters sent as JSON decodes to itself |
| DirectiveSchema.FrameRoundTrip | server/server.js:46-55 | a valid frame sent as JSON decodes to itself |
| DirectiveSchema.FramesRoundTrip | server/server.js:44-56 | a list of valid frames sent as JSON decodes to itself |
| DirectiveSchema.EncodedScalars | server/server.js:27-44 | each scalar field of a sent directive decodes to the directive's own value |
| DirectiveSchema.EncodedObjects | server/server.js:39-42 | the gesture and speech-hint objects of a sent directive decode to the directive's own |
| DirectiveSchema.RoundTrip | server/front/src/avatar/types.ts:3-40 | a valid directive the server sends is accepted by the browser's identical schema and decodes to itself |
| DirectiveSchema.AcceptedIffValid | server/front/src/avatar/types.ts:3-40 | a sent directive is accepted exactly when it satisfies the schema's constraints (both directions) |
| DirectiveSchema.ParseEncodedIsSelf | server/front/src/avatar/types.ts:3-40 | whenever the schema accepts a sent directive, the result is that directive |
| DirectiveSchema.ParamsDecodeEncoded | server/front/src/avatar/types.ts:25-31 | whenever a sent parameter list is accepted, it decodes to itself |
| DirectiveSchema.FramesDecodeEncoded | server/front/src/avatar/types.ts:21-34 | whenever a sent timeline is accepted, it decodes to itself |
| JsonText.IndexOf | server/server.js:101 | the result is -1 exactly when the character is absent; otherwise it is the first position of that character |
| JsonText.LastIndexOf | server/server.js:102 | the result is -1 exactly when the character is absent; otherwise it is the last position of that character |
| JsonText.ExtractJson | server/server.js:99-105 | the result is null exactly when no `{` comes before a `}`; otherwise it is the slice from the first `{` through the last `}`, braces included |
| JsonText.JsonCandidate | server/server.js:144 | text with a brace pair is cut down to exactly the slice from its first `{` through its last `}`; other text goes to `JSON.parse` as it is |
| JsonText.CandidateInProse | server/server.js:99-105 | an object wrapped in prose that holds no `{` before it and no `}` after it is handed to `JSON.parse` exactly |
| JsonText.ExtractIdempotent | server/server.js:99-105 | extracting from an extracted slice returns it unchanged |
| JsonText.CandidateCases | server/server.js:144 | text without a brace pair, or already braced at both ends, goes to `JSON.parse` unchanged |
| Generation.RetryNote | server/server.js:131-134 | the retry note is empty exactly on the first attempt |
| Generation.Temperature | server/server.js:142 | the temperature lies in (0, 1), and a retry is cooler than the first attempt |
| Generation.Messages | server/server.js:136-140 | the system prompt with the note comes first, then the stored history in order, then the user's text; length is history + 2 |
| Generation.RequestFor | server/server.js:130-142 | an attempt's request carries the stored history and the user's text; the first attempt has no note and temperature 0.7; a retry has the JSON-only note and temperature 0.2 |
| Generation.FallbackDirective | server/server.js:86-97 | the fallback is the fixed apology, neutral at intensity 0.2, with an idle gesture without motion, no expression, an empty timeline and all-null speech hints; it satisfies the schema and survives the browser's re-validation unchanged |
| Generation.Validate | server/server.js:144-151 | a candidate text `JSON.parse` rejects yields none; one it accepts yields exactly what the schema makes of the parsed JSON, and a directive yielded satisfies the schema's constraints |
| Generation.ValidReplyAccepted | server/server.js:144-151 | a reply whose candidate parses to the JSON of a valid directive is accepted as that very directive |
| Generation.Generate | server/server.js:129-161 | at most two requests, one on a retry; a second request happens only after the first reply was rejected; the last request decides: its error escapes, an accepted reply is returned, and a rejected retry gives the fallback |
| Generation.GenerateSound | server/server.js:146-160 | every directive generation returns satisfies the schema |
| Generation.FirstReplyAccepted | server/server.js:149-151 | a first reply the schema accepts is returned after that one request |
| Generation.TwoRejectionsFallBack | server/server.js:156-160 | two rejected replies give the fallback after exactly two requests, at temperatures 0.7 and then 0.2 |
| Sessions.LastN | server/server.js:169 | `slice(-n)` for a positive n keeps the last n elements, or all of them when fewer |
| Sessions.Turn | server/server.js:165-168 | an exchange stores the user's message, then the assistant's only when its text is non-empty |
| Sessions.NextHistory | server/server.js:164-169 | the stored history is never empty, holds at most eight messages, and ends with the user's message followed by the assistant's reply when there is one |
| Sessions.NextHistoryShape | server/server.js:163-171 | the new history has at most eight messages, ends with the new exchange, keeps the order of what it retains, and drops nothing while under the bound; past the bound it is trimmed to exactly eight |
| Sessions.LastNAppend | server/server.js:169 | trimming before appending loses nothing the next trim would keep |
| Sessions.ReplayIsTranscriptTail | server/server.js:83-84 | after any number of exchanges, a session's history is exactly the last eight messages of its whole conversation |
| Sessions.SessionStore.constructor | server/server.js:83 | the store starts with no sessions |
| Sessions.SessionStore.History | server/server.js:130 | a stored session yields its stored history, an unknown one the empty history, and either has at most eight messages |
| Sessions.SessionStore.UpdateSession | server/server.js:163-171 | only the given session changes: it gets the trimmed history with the new exchange, and every history stays within the bound |
| Bytes.EncodeU16LE | server/server.js:189 | a 16-bit field is two bytes |
| Bytes.EncodeU32LE | server/server.js:181 | a 32-bit field is four bytes |
| Bytes.U16RoundTrip | server/server.js:189-199 | reading back a written 16-bit little-endian field gives the value written |
| Bytes.U32RoundTrip | server/server.js:181-203 | reading back a written 32-bit little-endian field gives the value written |
| Bytes.Ascii | server/server.js:179 | a tag is written as one byte per character, holding its code |
| SilentWav.NumSamples | server/server.js:174 | at least one sample; beyond one, the sample count is the floor of duration times rate; a single sample means duration times rate is below 2 |
| SilentWav.RiffDescriptor | server/server.js:179-184 | the RIFF descriptor is 12 bytes |
| SilentWav.FmtFormat | server/server.js:185-192 | the first half of the format chunk is 12 bytes |
| SilentWav.FmtRates | server/server.js:193-200 | the second half of the format chunk is 12 bytes |
| SilentWav.DataChunkHeader | server/server.js:201-203 | the data chunk header is 8 bytes |
| SilentWav.WavHeader | server/server.js:179-203 | the header is 44 bytes, with the RIFF, WAVE, `fmt ` and data tags at offsets 0, 8, 12 and 36 |
| SilentWav.RiffFields | server/server.js:181 | the RIFF descriptor carries the chunk size 36 + data size at offset 4 |
| SilentWav.FormatFields | server/server.js:187-191 | the format chunk carries size 16, PCM format 1 and one channel |
| SilentWav.RatesFields | server/server.js:193-199 | the rates carry the sample rate, byte rate 2 × rate, block align 2 and 16 bits per sample |
| SilentWav.DataFields | server/server.js:203 | the data chunk header carries the data size at offset 4 |
| SilentWav.HeaderFields | server/server.js:179-203 | every numeric header field reads back, at its offset in the 44 bytes, as the value the source writes |
| SilentWav.SilentWav | server/server.js:173-206 | the file is the 44-byte header followed by two zero bytes per sample |
| SilentWav.Zeros | server/server.js:176 | `Buffer.alloc` gives n zero bytes |
| SilentWav.SilentWavLayout | server/server.js:173-206 | the file is 44 + 2n bytes: tags at 0, 8, 12 and 36; RIFF size 36 + 2n; PCM format, mono, the rate, byte rate 2 × rate, block align 2, 16 bits; data size 2n; then only zero samples |
| SilentWav.WriteBytes | server/server.js:179-203 | each write stores its bytes at the offset and keeps the rest of the buffer zero |
| SilentWav.WriteRiffDescriptor | server/server.js:179-184 | the RIFF descriptor is written after the bytes so far, with the offset advanced past it |
| SilentWav.WriteFmtFormat | server/server.js:185-192 | the format tag, size, PCM format and channel count are written next |
| SilentWav.WriteFmtRates | server/server.js:193-200 | the rates, block align and sample width are written next |
| SilentWav.WriteDataChunkHeader | server/server.js:201-203 | the data tag and size are written last |
| SilentWav.BuildSilentWav | server/server.js:173-206 | the buffer returned is exactly the silent WAVE file `SilentWav` describes |
| Routes.BodyField | server/server.js:213 | a field of the body, or of an empty object when there is none, is present exactly when the body is an object holding that key, and then it is that value |
| Routes.NonEmptyString | server/server.js:214 | a field passes exactly when it is a non-empty string, and then it is that string |
| Routes.ChatSessionId | server/server.js:219 | a non-empty string session id from the body is used; otherwise the fresh id is used |
| Routes.HandleChat | server/server.js:212-230 | rejected with 400 and no session change exactly when userText is missing, empty or not a string; otherwise exactly the chosen session gains the exchange, and the reply carries the generated directive, or the fallback with warning "fallback" when generation threw; the directive always satisfies the schema and survives the browser's re-validation |
| Routes.PlaceholderDuration | server/server.js:240 | the placeholder length is 40 ms per character, clamped to [1, 3] seconds |
| Routes.PlaceholderFits | server/server.js:240 | the placeholder audio for any text fits the 32-bit header fields |
| Routes.TtsRequestFor | server/server.js:250 | the service receives the text, and each hint the body holds, or null for a hint it lacks |
| Routes.HandleTts | server/server.js:232-266 | rejected with 400 exactly when text is missing, empty or not a string; without a service URL, or when the service fails, the answer is the silent placeholder; otherwise it is the service's audio unchanged; always labelled audio/wav |
| Avatar.Driver.constructor | server/front/src/avatar/ILive2DDriver.ts:3 | a fresh driver has received no calls |
| Avatar.Driver.Load | server/front/src/avatar/ILive2DDriver.ts:4 | the driver records the load |
| Avatar.Driver.Unload | server/front/src/avatar/ILive2DDriver.ts:5 | the driver records the unload |
| Avatar.Driver.SetExpression | server/front/src/avatar/ILive2DDriver.ts:6 | the driver records the expression, null included |
| Avatar.Driver.TriggerMotion | server/front/src/avatar/ILive2DDriver.ts:7 | the driver records the motion and its priority |
| Avatar.Driver.SetParameter | server/front/src/avatar/ILive2DDriver.ts:8 | the driver records the parameter write |
| Avatar.Driver.Dispose | server/front/src/avatar/ILive2DDriver.ts:9 | the driver records the disposal |
| Avatar.Scheduler.constructor | server/front/src/avatar/AvatarController.ts:5-6 | nothing is pending at first |
| Avatar.Scheduler.SetTimeout | server/front/src/avatar/AvatarController.ts:30-35 | `setTimeout` registers the callback under a fresh handle |
| Avatar.Scheduler.ClearTimeout | server/front/src/avatar/AvatarController.ts:53 | `clearTimeout` removes that timeout and nothing else |
| Avatar.Scheduler.TakeTimeout | server/front/src/avatar/AvatarController.ts:30-34 | a due timeout is taken off the queue to run |
| Avatar.Scheduler.RequestAnimationFrame | server/front/src/avatar/AvatarController.ts:87 | `requestAnimationFrame` registers the step under a fresh handle |
| Avatar.Scheduler.CancelAnimationFrame | server/front/src/avatar/AvatarController.ts:68 | `cancelAnimationFrame` removes that frame and nothing else |
| Avatar.Scheduler.TakeFrame | server/front/src/avatar/AvatarController.ts:79-92 | a due animation frame is taken off the queue to run |
| Avatar.Cached | server/front/src/avatar/AvatarController.ts:32 | `paramCache.get(id) ?? 0`: the cached value, 0 for a parameter never written |
| Avatar.ApplyParam | server/front/src/avatar/AvatarController.ts:31-34 | a parameter with a non-positive fade is written at once with no animation left; one with a positive fade leaves the cache alone and animates from its cached value (0 when none) to its target from now |
| Avatar.Clamp01 | server/front/src/avatar/AvatarController.ts:42 | the clamped value lies in [0, 1]; a value already in [0, 1] is kept, and values outside go to the nearer end |
| Avatar.Animate | server/front/src/avatar/AvatarController.ts:63-96 | a fade that is not positive writes the target at once and leaves no animation; a positive fade leaves the cache alone and starts an animation from `from` to the target over the fade, from now |
| Avatar.LastTarget | server/front/src/avatar/AvatarController.ts:31 | the position of the last listing of a parameter in a frame, or -1 when it is not listed |
| Avatar.FirstOutcome | server/front/src/avatar/AvatarController.ts:29-38 | after a prefix of a frame fires, an unlisted parameter is untouched, and a listed one ends as its last listing says |
| Avatar.FrameOutcome | server/front/src/avatar/AvatarController.ts:29-38 | after a frame fires, an unlisted parameter is untouched; a listed one ends as its last listing says, either written at once or animating toward that target over that fade |
| Avatar.Progress | server/front/src/avatar/AvatarController.ts:80-81 | progress lies in [0, 1], and it reaches 1 exactly when the fade time has elapsed |
| Avatar.Lerp | server/front/src/avatar/AvatarController.ts:82 | the value lies between `from` and the target; it is `from` at 0 and the target at 1 |
| Avatar.ProgressMonotone | server/front/src/avatar/AvatarController.ts:80-81 | progress never goes backwards as time advances |
| Avatar.LerpApproaches | server/front/src/avatar/AvatarController.ts:82 | a later step is never farther from the target than an earlier one |
| Avatar.Step | server/front/src/avatar/AvatarController.ts:79-92 | a step writes the interpolation at the elapsed fraction of the fade to that parameter's cache entry and to no other, a value between the animation's ends; the animation stays in flight exactly while the fade time has not elapsed; the last step writes the target exactly; other parameters' animations are untouched |
| Avatar.CancelAnim | server/front/src/avatar/AvatarController.ts:66-70 | cancelling a parameter's frame and forgetting its handle removes exactly that animation |
| Avatar.RegisterAnim | server/front/src/avatar/AvatarController.ts:94-95 | registering a fresh frame adds exactly that animation |
| Avatar.StepAnim | server/front/src/avatar/AvatarController.ts:79-90 | a pending frame carries the animation in flight for its parameter |
| Avatar.RescheduleAnim | server/front/src/avatar/AvatarController.ts:86-88 | asking for the next frame keeps the animations in flight as they were |
| Avatar.AvatarController.constructor | server/front/src/avatar/AvatarController.ts:5-9 | a new controller has no timers, no animations and an empty cache |
| Avatar.AvatarController.LoadModel | server/front/src/avatar/AvatarController.ts:11-13 | the model URL is passed to the driver |
| Avatar.AvatarController.UnloadModel | server/front/src/avatar/AvatarController.ts:15-18 | every timer and animation is cancelled, the cache is kept, and then the driver unloads |
| Avatar.AvatarController.ApplyDirective | server/front/src/avatar/AvatarController.ts:20-39 | all earlier timers and animations are cancelled; the expression and then the gesture go to the driver; exactly one timer per frame is pending, in order, with distinct handles, due `t * 1000` ms later |
| Avatar.AvatarController.ScheduleTimeline | server/front/src/avatar/AvatarController.ts:29-38 | one timer per frame is registered, in order, with distinct handles and each frame's delay |
| Avatar.AvatarController.RunTimeout | server/front/src/avatar/AvatarController.ts:30-34 | a firing timer runs its frame's callback and leaves the queue |
| Avatar.AvatarController.FireFrame | server/front/src/avatar/AvatarController.ts:31-34 | the frame's parameters animate in order from their cached values (0 when none); the new state is `ApplyParams` of the old one, and the driver gets exactly the immediate writes |
| Avatar.AvatarController.ApplyParamTarget | server/front/src/avatar/AvatarController.ts:32-33 | one parameter animates from its cached value, 0 when none |
| Avatar.AvatarController.AnimateParameter | server/front/src/avatar/AvatarController.ts:63-96 | the new state is `Animate` of the old one; only a non-positive fade writes to the driver at once; the timers are untouched |
| Avatar.AvatarController.CancelAnimation | server/front/src/avatar/AvatarController.ts:66-70 | the parameter's animation in flight, if any, is cancelled and forgotten; nothing else changes |
| Avatar.AvatarController.RunAnimationFrame | server/front/src/avatar/AvatarController.ts:79-92 | a frame's step moves the state by `Step`, writes the same value to the driver and the cache, and re-arms only while the fade is unfinished |
| Avatar.AvatarController.SetLipSync | server/front/src/avatar/AvatarController.ts:41-45 | the clamped value goes to `ParamMouthOpenY` on the driver and in the cache; timers and animations are untouched |
| Avatar.AvatarController.Dispose | server/front/src/avatar/AvatarController.ts:47-50 | every timer and animation is cancelled, the cache is kept, and then the driver is disposed |
| Avatar.AvatarController.ClearTimeline | server/front/src/avatar/AvatarController.ts:52-56 | no timer and no animation is left pending; the cache is kept |
| Avatar.AvatarController.ClearAnimations | server/front/src/avatar/AvatarController.ts:58-61 | every animation frame is cancelled and the map is emptied; timers and cache are kept |
| Audio.Teardown | server/front/src/avatar/LipSync.ts:39-48 | disconnecting makes no call when nothing is held, never creates a context, and closes the context last when one is held |
| Audio.LiveContextsStep | server/front/src/avatar/LipSync.ts:7-54 | creating a context makes it live, closing one makes it dead, and other calls change nothing |
| Audio.LiveContextsAppend | server/front/src/avatar/LipSync.ts:39-48 | calls that create no context never add a live one, and a closing call at the end leaves its context dead |
| Audio.LiveAfterSetup | server/front/src/avatar/LipSync.ts:9-17 | connecting adds exactly the new context to the live ones |
| Audio.Sample | server/front/src/avatar/LipSync.ts:31 | a sample lies in [-1, 1), and it is zero exactly at byte 128 |
| Audio.SumSquares | server/front/src/avatar/LipSync.ts:29-33 | the sum the loop accumulates is never negative |
| Audio.SquareInUnit | server/front/src/avatar/LipSync.ts:31-32 | a squared sample lies in [0, 1] |
| Audio.SumSquaresBounds | server/front/src/avatar/LipSync.ts:29-33 | the sum of n squared samples lies in [0, n] |
| Audio.SumSquaresZero | server/front/src/avatar/LipSync.ts:29-33 | the sum is zero exactly when every byte is 128 |
| Audio.MeanSquare | server/front/src/avatar/LipSync.ts:35 | the mean square is never negative, and times the sample count it gives back the sum |
| Audio.MeanSquareInUnit | server/front/src/avatar/LipSync.ts:35 | the mean square lies in [0, 1] |
| Audio.Level | server/front/src/avatar/LipSync.ts:35-36 | the level never exceeds a full opening, and is never negative for a root that is never negative |
| Audio.LevelInUnit | server/front/src/avatar/LipSync.ts:35-36 | the level is a mouth opening in [0, 1] |
| Audio.SilenceCloses | server/front/src/avatar/LipSync.ts:29-36 | a silent waveform gives level 0, and with a root that is positive on positive numbers only silence does |
| Audio.LevelMonotone | server/front/src/avatar/LipSync.ts:35-36 | a waveform with a larger mean square never gives a smaller level |
| Audio.LipSync.constructor | server/front/src/avatar/LipSync.ts:2-5 | a new instance holds nothing and has made no call |
| Audio.LipSync.Disconnect | server/front/src/avatar/LipSync.ts:39-54 | the source, the analyser and the context that are held are released in that order; then all four fields are null and no context is live |
| Audio.LipSync.Connect | server/front/src/avatar/LipSync.ts:7-23 | it disconnects first; then it opens a new context whose analyser (FFT size 2048, smoothing 0.7) listens to the element and plays through to the speakers; the buffer is fresh, 1024 zero bytes; the new context is the only live one |
| Audio.LipSync.GetValue | server/front/src/avatar/LipSync.ts:25-37 | 0 when not connected; otherwise the buffer receives the waveform and the result is the level of the buffer; always in [0, 1] |

## Left out

- The language-model call, the speech-service call, `fetch` and their HTTP details are parameters. The model sees only a reply or an error.
- Express plumbing is not modelled: routing, body parsing, static files, `/api/health`, `listen`, and the SPA fallback route.
- `JSON.parse` is a parameter. Key order and duplicate keys are not modelled.
- Numbers are exact reals. IEEE-754 rounding, NaN and infinities are not modelled.
- DirectiveSchema.RoundTrip holds for finite numbers only. `JSON.parse` reads an overflowing literal such as `1e400` as `Infinity`. `z.number()` and `.min(0)` accept it (server/server.js:47, 51, 52, 60, 61), and `res.json` sends it as `null`. The browser's schema then rejects that directive, or reads a speed or pitch as null.
- Routes.HandleChat: its clause that the browser's re-validation returns the directive unchanged holds for finite numbers only, for the same reason.
- Concurrency between requests is not modelled. Each handler runs to completion against the session store.
- Routes.PlaceholderDuration: the length counts characters, not the UTF-16 code units that JavaScript's `text.length` counts, so a text with characters outside the Basic Multilingual Plane gets a shorter placeholder.
- SilentWav.BuildSilentWav requires the header fields to fit 32 bits. The source throws a RangeError when they do not. Its only callers pass at most three seconds at 22050 Hz, and `Routes.PlaceholderFits` proves that is always within the limit.
- Avatar.AvatarController.ApplyDirective: the `gesture?.motion ?? null` and `?? "normal"` defaults are not modelled. A directive that passed the schema always has a gesture with both fields.
- Avatar.AvatarController.LoadModel is synchronous. The `await` of the driver's load is not modelled.
- Avatar.AvatarController.RunAnimationFrame requires the current time not to be before the animation's start. `performance.now()` never goes backwards.
- The browser runs timers and animation frames only when they are due. The model lets any pending callback run, so it does not capture the order in which due callbacks run.
- Audio.LipSync.Connect assumes every Web Audio call succeeds. `createMediaElementSource` throws for an element already attached to a source node. The context just created is then never closed, and the fields stay null. Neither failure is modelled.
- Audio.LipSync: Web Audio is modelled only as the log of calls made on it, not as audio processing. `getByteTimeDomainData` becomes the `waveform` argument, of FFT-size length, and its first `frequencyBinCount` samples fill the buffer.
- Audio.LipSync.GetValue: `Math.sqrt` is a parameter. The contract relies only on it being non-negative on non-negative numbers and zero at zero. `Audio.LevelMonotone` also needs it to be monotone.
- The browser client's own request code is not part of this model (server/front/src/api/client.ts). Its re-validation of the directive is stated by `DirectiveSchema.RoundTrip` and `Routes.HandleChat`.
- Also not part of this model:
  - the React UI (App.tsx, ChatPanel.tsx) and the gaze configuration;
  - the Pixi Live2D driver and the Cubism core loader;
  - the Python speech server and the C# host window;
  - the top-level server.js launcher.
- `/api/chat` rejects an empty `userText` as well as a missing one, because the code tests truthiness. The model follows the code.
