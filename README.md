# Meal logger: a verified model of the app's core

This project models the core of **meal-tracker-app**, an Android app for THINKLET wearable glasses. The user asks by voice, or with the glasses' buttons, to record a meal. The app takes a photo and analyses it in two steps: ML Kit image labels on the device first, then a server analysis. The app stores the meal, reads a history back to the user, gives advice, and suggests a meal for the time of day.

Speech reaches the app along three paths:

- the platform `SpeechRecognizer`, with a keyword parser;
- the on-device Vosk recogniser behind the XFE voice-activity detector;
- a WebSocket stream to the server behind the same detector.

The audio helpers are a 6-channel delay-and-sum beamformer and a 16-bit PCM resampler.

The Dafny modules follow the source files. Each module says where its state comes from.

| module | models |
|---|---|
| `Pcm` | Kotlin `Byte`/`Short`, `toByte`/`toShort`, `coerceIn`, truncating `Long` division, the little-endian sample codec |
| `AudioResampler` | `AudioResampler.kt`: decimation 48 kHz → 16 kHz and linear-interpolation resampling |
| `Beamforming` | `BeamformingProcessor.kt`: deinterleaving, per-channel FIFO delay lines, averaging, `reset` |
| `Text` | `contains`, ASCII `lowercase()`, removal of `\s` (the Unicode White_Space characters, as Android's regex engine matches them), `trim()`, UTF-16 `length` |
| `Models` | the app's value types: commands, states, analysis results, meal rows |
| `VoiceAssistant` | `VoiceAssistant.kt`: `parseCommand`, the error messages, the listening flag |
| `MealTracking` | `MealTrackingService.kt`: the voice-command state machine |
| `MealAnalyzer` | `MealAnalyzer.kt`: quick and detailed analysis, the database rows, the offline queue, corrections |
| `CameraService` | `CameraService.kt`: target rotation, capture guard, photo edits, the once-only CameraX patch |
| `VoiceCommon` | what the two XFE services share: licence and model search on a modelled file system, one recording-loop turn |
| `VoskService` | `VoskVoiceService.kt` |
| `WebSocketService` | `WebSocketVoiceService.kt`, including the socket URL of `connectWebSocket` |
| `UserId`, `LoginActivity`, `MainActivity` | the user-ID check, the login screen, the main screen's dialogue rules and button state machine |

Objects whose fields the source updates in place are classes with `modifies` frames. Examples are the services, the beamformer, the screens and the camera patch flag.

Some effects happen outside the object:

- something spoken;
- a callback posted to the main thread;
- a socket frame;
- a database row.

Each of these is recorded in a ghost log or a trace that the methods' contracts state in full.

What a platform or library call returns is a parameter of the method that makes the call. This covers the recogniser's final result, XFE's start code, the recorder, the file system, the server's answer and the clock.

Behaviour of the code worth noting:

- A repeated `SpeechStart` resets the Vosk recogniser again.
- The WebSocket service posts a `final` result even when it is empty.
- `downsample48to16` takes the floor of a third of the samples, not a rounding.
- An empty licence file at an earlier path ends the licence search (`VoiceCommon.EmptyLicenseStopsSearch`).

## Model

| member | source | states |
|---|---|---|
| Pcm.Unsigned | app/src/main/java/com/example/meallogger/audio/AudioResampler.kt:85 | `b and 0xFF` lies in 0..255 and agrees with the byte modulo 256 |
| Pcm.ToByte | app/src/main/java/com/example/meallogger/audio/AudioResampler.kt:72-73 | `toByte()` keeps the value modulo 256 |
| Pcm.ToShort | app/src/main/java/com/example/meallogger/audio/AudioResampler.kt:85 | `toShort()` keeps the value modulo 65536 and leaves an in-range value alone |
| Pcm.DecodeValue | app/src/main/java/com/example/meallogger/audio/AudioResampler.kt:84-86 | a decoded sample is the signed high byte times 256 plus the unsigned low byte |
| Pcm.DecodeEncode | app/src/main/java/com/example/meallogger/audio/BeamformingProcessor.kt:139-140 | decoding the two bytes written for a sample gives the sample back |
| Pcm.EncodeDecode | app/src/main/java/com/example/meallogger/audio/BeamformingProcessor.kt:104-105 | encoding a decoded sample gives back both bytes |
| Pcm.Clip16 | app/src/main/java/com/example/meallogger/audio/AudioResampler.kt:69 | `coerceIn` to the 16-bit range is the identity inside it and the nearest 16-bit value outside |
| Pcm.TruncDiv | app/src/main/java/com/example/meallogger/audio/BeamformingProcessor.kt:132 | Kotlin's `Long` division truncates toward zero: the magnitude is the quotient of magnitudes and the sign follows the dividend |
| Pcm.EncodeSamples | app/src/main/java/com/example/meallogger/audio/BeamformingProcessor.kt:137-140 | a mono stream takes two bytes per sample |
| AudioResampler.Downsample48to16 | app/src/main/java/com/example/meallogger/audio/AudioResampler.kt:16-36 | odd input length fails with `IllegalArgumentException`, and only then; the output holds a floor of a third of the samples, and sample `i` is input sample `3i` byte for byte |
| AudioResampler.Downsample | app/src/main/java/com/example/meallogger/audio/AudioResampler.kt:45-82 | for an integer rate ratio `k`: the same error case, `roundToInt(n / k)` output samples, output sample `i` is input sample `k i`, and equal rates give the input back |
| AudioResampler.OutputSample | app/src/main/java/com/example/meallogger/audio/AudioResampler.kt:56-78 | each loop turn, interpolating or verbatim, writes input sample `k i` |
| AudioResampler.UnitRatio | app/src/main/java/com/example/meallogger/audio/AudioResampler.kt:45-82 | with ratio 1 the sample-by-sample copy is the whole input |
| AudioResampler.WholeInterpolation | app/src/main/java/com/example/meallogger/audio/AudioResampler.kt:61-68 | a zero interpolation fraction returns the first sample unchanged |
| AudioResampler.RatioIsWhole | app/src/main/java/com/example/meallogger/audio/AudioResampler.kt:50 | an integer ratio of rates is exact as a double quotient |
| AudioResampler.OutputCount | app/src/main/java/com/example/meallogger/audio/AudioResampler.kt:52 | `(n / k).roundToInt()` equals `(2n + k) / (2k)` |
| AudioResampler.WholePosition | app/src/main/java/com/example/meallogger/audio/AudioResampler.kt:56-61 | position `i * k` truncates to `k i` with a zero fraction |
| AudioResampler.Interpolate | app/src/main/java/com/example/meallogger/audio/AudioResampler.kt:53-79 | for a whole ratio `k`, the loop fills all `outputSamples` samples, and output sample `j` is input sample `k j` byte for byte |
| AudioResampler.SourceInRange | app/src/main/java/com/example/meallogger/audio/AudioResampler.kt:59-78 | every output position falls inside the input, so the loop never writes nothing |
| Beamforming.FrameSamples | app/src/main/java/com/example/meallogger/audio/BeamformingProcessor.kt:101-108 | a frame holds six channel samples |
| Beamforming.Column | app/src/main/java/com/example/meallogger/audio/BeamformingProcessor.kt:100-108 | a deinterleaved channel holds one sample per frame |
| Beamforming.Push | app/src/main/java/com/example/meallogger/audio/BeamformingProcessor.kt:117-127 | a push releases a sample exactly when the line then exceeds its delay, and a line never grows past its delay |
| Beamforming.MixChannels | app/src/main/java/com/example/meallogger/audio/BeamformingProcessor.kt:115-128 | the channels not yet visited keep their lines, visited ones are pushed, and the sum stays within `count` shorts (`MixReleases` states the values) |
| Beamforming.Released | app/src/main/java/com/example/meallogger/audio/BeamformingProcessor.kt:117-127 | channel `ch` releases exactly what pushing its frame sample onto its line releases |
| Beamforming.CountOf | app/src/main/java/com/example/meallogger/audio/BeamformingProcessor.kt:113-126 | the release count never exceeds the channels visited, and is 0 when nothing is released |
| Beamforming.SumOf | app/src/main/java/com/example/meallogger/audio/BeamformingProcessor.kt:112-125 | the sum of the released samples lies within `count` shorts, so the `Long` sum never overflows |
| Beamforming.MixReleases | app/src/main/java/com/example/meallogger/audio/BeamformingProcessor.kt:115-128 | the mix's `sum` and `count` are exactly the sum and number of the samples the channels release |
| Beamforming.ReleasedStep | app/src/main/java/com/example/meallogger/audio/BeamformingProcessor.kt:120-126 | one more channel adds its released sample to the sum and one to the count, or nothing |
| Beamforming.FrameOutput | app/src/main/java/com/example/meallogger/audio/BeamformingProcessor.kt:131-135 | no release gives 0, otherwise the truncated average |
| Beamforming.AverageInRange | app/src/main/java/com/example/meallogger/audio/BeamformingProcessor.kt:132 | the truncated average of `count` shorts is a short, so `coerceIn` never alters it |
| Beamforming.Run | app/src/main/java/com/example/meallogger/audio/BeamformingProcessor.kt:111-141 | one output sample per frame, six lines kept |
| Beamforming.RunStep | app/src/main/java/com/example/meallogger/audio/BeamformingProcessor.kt:111-141 | one more frame appends that frame's output to the run |
| Beamforming.Window | app/src/main/java/com/example/meallogger/audio/BeamformingProcessor.kt:117-127 | a delay line holds at most `delay` of the samples pushed |
| Beamforming.PushWindow | app/src/main/java/com/example/meallogger/audio/BeamformingProcessor.kt:117-127 | a delay line is the last `delay` samples pushed onto it, and releases the sample pushed `delay` frames earlier |
| Beamforming.ZeroDelay | app/src/main/java/com/example/meallogger/audio/BeamformingProcessor.kt:120-126 | a zero-delay channel releases its current sample at once and holds nothing |
| Beamforming.RunWindow | app/src/main/java/com/example/meallogger/audio/BeamformingProcessor.kt:111-141 | after any run each line is the window of that channel's whole history |
| Beamforming.WindowsBounded | app/src/main/java/com/example/meallogger/audio/BeamformingProcessor.kt:117-127 | each line stays within its channel's delay |
| Beamforming.MixSilence | app/src/main/java/com/example/meallogger/audio/BeamformingProcessor.kt:115-128 | silent input onto silent lines sums to zero and leaves the lines silent |
| Beamforming.FrameSilence | app/src/main/java/com/example/meallogger/audio/BeamformingProcessor.kt:101-108 | all-zero bytes decode to zero samples |
| Beamforming.RunSilence | app/src/main/java/com/example/meallogger/audio/BeamformingProcessor.kt:111-141 | all-zero input from silent lines gives all-zero output |
| Beamforming.Ready | app/src/main/java/com/example/meallogger/audio/BeamformingProcessor.kt:111-128 | from empty lines, channel `ch` releases in frame `f` its sample from `delays[ch]` frames earlier, once that many frames have passed |
| Beamforming.RunPrefix | app/src/main/java/com/example/meallogger/audio/BeamformingProcessor.kt:111-141 | later frames never change an output sample already produced |
| Beamforming.ReadyChannel | app/src/main/java/com/example/meallogger/audio/BeamformingProcessor.kt:117-127 | a channel whose history is its first `f` samples releases, in frame `f`, its sample from `delay` frames earlier |
| Beamforming.FreshReleases | app/src/main/java/com/example/meallogger/audio/BeamformingProcessor.kt:111-128 | from empty lines, what frame `f` releases is `Ready` |
| Beamforming.FreshRunOutput | app/src/main/java/com/example/meallogger/audio/BeamformingProcessor.kt:111-135 | from empty lines, output sample `f` is 0 while no delay has elapsed, else the truncated average of the samples each channel took `delays[ch]` frames earlier |
| Beamforming.BeamformingProcessor.constructor | app/src/main/java/com/example/meallogger/audio/BeamformingProcessor.kt:34-43 | a fresh processor has six empty delay lines and the given delay table |
| Beamforming.BeamformingProcessor.Reset | app/src/main/java/com/example/meallogger/audio/BeamformingProcessor.kt:149-151 | every delay line is emptied; the delay table stays |
| Beamforming.BeamformingProcessor.ProcessMultiChannel | app/src/main/java/com/example/meallogger/audio/BeamformingProcessor.kt:90-144 | a size that is not a multiple of 12 returns the input and changes nothing; otherwise the output is the encoded run over the delay lines, a sixth of the input long, and the lines become the run's lines |
| Beamforming.BeamformingProcessor.DelayAndSumFrames | app/src/main/java/com/example/meallogger/audio/BeamformingProcessor.kt:110-141 | the frame loop writes the encoded run and leaves the lines the run leaves |
| Beamforming.BeamformingProcessor.ProcessFrame | app/src/main/java/com/example/meallogger/audio/BeamformingProcessor.kt:111-141 | one frame's mono sample is written little-endian at `2 frame`; afterwards the lines and the bytes written so far are those of `Run` over one more frame |
| Beamforming.BeamformingProcessor.DelayAndSum | app/src/main/java/com/example/meallogger/audio/BeamformingProcessor.kt:115-128 | the channel loop computes the mix of the frame |
| Beamforming.EncodeSnoc | app/src/main/java/com/example/meallogger/audio/BeamformingProcessor.kt:137-140 | writing one more sample appends its two bytes |
| Beamforming.Deinterleave | app/src/main/java/com/example/meallogger/audio/BeamformingProcessor.kt:99-108 | channel `c` of frame `f` lands at `[c, f]` |
| Beamforming.ResetMatchesFresh | app/src/main/java/com/example/meallogger/audio/BeamformingProcessor.kt:149-151 | processing after `reset` equals processing on a fresh processor |
| Text.ContainsIffOccurs | VoiceAssistant.kt:172-189 | `contains` holds exactly when the needle occurs at some index |
| Text.ContainsInfix | VoiceAssistant.kt:172-189 | a needle between two strings is contained |
| Text.LowerChar | VoiceAssistant.kt:170 | ASCII capitals map to their small letters, other characters stay |
| Text.Lower | VoiceAssistant.kt:170 | `lowercase()` works character by character |
| Text.LowerConcat | VoiceAssistant.kt:170 | lowercasing distributes over concatenation |
| Text.LowerFixes | VoiceAssistant.kt:170 | lowercasing is idempotent and fixes exactly the strings without capitals |
| Text.RemoveSpaces | VoiceAssistant.kt:170 | removing `\s+` leaves no `\s` character, where `\s` is Unicode White_Space (ideographic space U+3000 included) |
| Text.RemoveSpacesConcat | VoiceAssistant.kt:170 | removal distributes over concatenation |
| Text.RemoveSpacesKeeps | VoiceAssistant.kt:170 | text without `\s` is kept as it is |
| Text.RemoveSpacesDrops | VoiceAssistant.kt:170 | a run of `\s` vanishes |
| Text.Normalize | VoiceAssistant.kt:170 | the normal form has no capitals and no `\s` |
| Text.NormalizeIgnoresSpaces | VoiceAssistant.kt:170 | any run of Unicode White_Space inserted anywhere does not change the normal form |
| Text.KeywordSurvives | VoiceAssistant.kt:170-189 | a keyword written in the raw text is found in the normal form |
| Text.TrimStart | app/src/main/java/com/example/meallogger/LoginActivity.kt:47 | strips a whitespace prefix, after which no whitespace leads |
| Text.TrimEnd | app/src/main/java/com/example/meallogger/LoginActivity.kt:47 | strips a whitespace suffix, after which no whitespace trails |
| Text.Trim | app/src/main/java/com/example/meallogger/LoginActivity.kt:47 | `trim()` is an infix cut out of whitespace at both ends, starting and ending with non-whitespace |
| Text.TrimFixes | app/src/main/java/com/example/meallogger/LoginActivity.kt:47 | an already trimmed string is unchanged |
| Text.TrimIdempotent | app/src/main/java/com/example/meallogger/LoginActivity.kt:47 | trimming twice is trimming once |
| Text.TrimIgnoresSurrounding | app/src/main/java/com/example/meallogger/LoginActivity.kt:47 | surrounding whitespace does not change the trimmed text |
| Text.Utf16Length | app/src/main/java/com/example/meallogger/LoginActivity.kt:55 | `length` counts UTF-16 units: between one and two per character, zero only for the empty string |
| UserId.CheckUserId | app/src/main/java/com/example/meallogger/LoginActivity.kt:46-65 | empty after `trim()` is refused, shorter than 3 units is refused, anything else is accepted as the trimmed text, each case exactly |
| UserId.AcceptedIsTrimmed | app/src/main/java/com/example/meallogger/LoginActivity.kt:47-60 | an accepted ID has no surrounding whitespace |
| UserId.CheckIgnoresSurroundingWhitespace | app/src/main/java/com/example/meallogger/LoginActivity.kt:47 | whitespace typed around the ID never changes the outcome |
| UserId.CheckIdempotent | app/src/main/java/com/example/meallogger/LoginActivity.kt:46-65 | checking an accepted ID again accepts it unchanged |
| LoginActivity.LoginActivity.constructor | app/src/main/java/com/example/meallogger/LoginActivity.kt:20-23 | starts from the stored user ID, no error shown |
| LoginActivity.LoginActivity.OnCreate | app/src/main/java/com/example/meallogger/LoginActivity.kt:15-29 | a stored ID navigates to the main screen without setting up the listeners; otherwise the listeners are set up |
| LoginActivity.LoginActivity.Login | app/src/main/java/com/example/meallogger/LoginActivity.kt:46-65 | each refusal shows its message and stores nothing; an accepted ID is stored trimmed and the main screen opens |
| VoiceAssistant.ParseCommand | VoiceAssistant.kt:169-191 | the command of the first rule that matches the normalised text, rules taken in source order |
| VoiceAssistant.UnknownIffNoRule | VoiceAssistant.kt:172-190 | `UNKNOWN` exactly when no rule matches |
| VoiceAssistant.ParseIgnoresWhitespace | VoiceAssistant.kt:170 | an inserted run of Unicode White_Space, the ideographic space included, never changes the command |
| VoiceAssistant.ParseIgnoresCase | VoiceAssistant.kt:170 | lowercasing first never changes the command |
| VoiceAssistant.RecordRequestWins | VoiceAssistant.kt:175 | "記録して" records a meal whatever else is said |
| VoiceAssistant.IdeographicSpaceRecords | VoiceAssistant.kt:170-175 | a record request split by an ideographic space (U+3000), such as "記録\u3000して", still records a meal |
| VoiceAssistant.GohanRecords | VoiceAssistant.kt:173 | "ご飯" with 記録, 撮 or 写真 records a meal |
| VoiceAssistant.HistoryUnlessRecord | VoiceAssistant.kt:177 | a history keyword gives `VIEW_HISTORY` if and only if no recording rule fired |
| VoiceAssistant.MenuUnlessEarlier | VoiceAssistant.kt:181 | a menu keyword gives `SUGGEST_MENU` if and only if no earlier rule fired |
| VoiceAssistant.ErrorMessage | VoiceAssistant.kt:196-205 | each of the six known error codes gets its own message (`音声入力エラー` for audio, and so on), any other code `不明なエラー` |
| VoiceAssistant.VoiceAssistant.constructor | VoiceAssistant.kt:45-52 | not listening; a recogniser exists exactly when recognition is available |
| VoiceAssistant.VoiceAssistant.StartListening | VoiceAssistant.kt:124-146 | ignored while listening; otherwise asks the recogniser, if there is one, to start |
| VoiceAssistant.VoiceAssistant.StopListening | VoiceAssistant.kt:148-154 | acts only while listening, and always leaves the flag cleared |
| VoiceAssistant.VoiceAssistant.OnReadyForSpeech | VoiceAssistant.kt:53-56 | listening |
| VoiceAssistant.VoiceAssistant.OnEndOfSpeech | VoiceAssistant.kt:70-73 | no longer listening |
| VoiceAssistant.VoiceAssistant.OnError | VoiceAssistant.kt:75-79 | stops listening and speaks the apology with the code's message |
| VoiceAssistant.VoiceAssistant.OnApologySpoken | VoiceAssistant.kt:207-210 | listening restarts through `startListening` |
| VoiceAssistant.VoiceAssistant.OnResults | VoiceAssistant.kt:81-90 | the first match, with its parsed command, is delivered when there is one; listening stops either way |
| MealTracking.Take | MealTrackingService.kt:246 | `take(n)` is the longest prefix of at most `n` elements |
| MealTracking.HistoryReply | MealTrackingService.kt:236-260 | a failed call, an empty history and a summary each give their reply |
| MealTracking.HistoryIgnoresLaterMeals | MealTrackingService.kt:246 | meals after the third never reach the summary |
| MealTracking.HistoryOfThree | MealTrackingService.kt:244-250 | with at least three meals exactly the first three are listed, in order |
| MealTracking.ShortHistory | MealTrackingService.kt:244-250 | with fewer than three meals every one is listed |
| MealTracking.MealTrackingService.constructor | MealTrackingService.kt:30-39 | starts `Idle` and greets the user with a question |
| MealTracking.MealTrackingService.HandleVoiceCommand | MealTrackingService.kt:63-98 | each command has its handler's whole effect on the state, the states entered, the speech and the requests: `RECORD_MEAL` starts the countdown only from `Idle`, `VIEW_HISTORY` only asks for history, `GET_ADVICE` and `SUGGEST_MENU` both ask for advice, the confirm/cancel replies are spoken, and `UNKNOWN` asks again and changes nothing else |
| MealTracking.MealTrackingService.HandleRecordMeal | MealTrackingService.kt:102-110 | only an idle service starts the photo countdown; otherwise it says it is busy |
| MealTracking.MealTrackingService.OnPhotoTaken | MealTrackingService.kt:112-128 | a photo is analysed, entering the quick analysis stage; a failure returns to `Idle` with an apology; exactly that one state is added to the states entered |
| MealTracking.MealTrackingService.AnalyzeMeal | MealTrackingService.kt:135-142 | enters the quick stage and asks the analyzer |
| MealTracking.MealTrackingService.OnAnalysisResult | MealTrackingService.kt:143-173 | a quick result is announced, a full one asks for confirmation, an error returns to `Idle` |
| MealTracking.MealTrackingService.OnAnalysisFailed | MealTrackingService.kt:175-179 | an exception in the flow returns to `Idle` with an apology |
| MealTracking.MealTrackingService.HandleConfirmYes | MealTrackingService.kt:186-205 | a meal awaiting confirmation is recorded and the service is `Idle`; otherwise nothing to confirm |
| MealTracking.MealTrackingService.HandleConfirmNo | MealTrackingService.kt:210-223 | a meal awaiting confirmation stays and the user is asked to correct or cancel; anything else is abandoned for `Idle` |
| MealTracking.MealTrackingService.HandleCancel | MealTrackingService.kt:228-231 | always back to `Idle` |
| MealTracking.MealTrackingService.HandleViewHistory | MealTrackingService.kt:236-239 | asks the server for five meals; the state is untouched |
| MealTracking.MealTrackingService.OnHistory | MealTrackingService.kt:240-258 | speaks the history reply |
| MealTracking.MealTrackingService.HandleGetAdvice | MealTrackingService.kt:265-270 | shows empty advice while asking the server |
| MealTracking.MealTrackingService.OnAdvice | MealTrackingService.kt:270-279 | the advice or an apology is spoken and the service is `Idle` |
| MainActivity.MealTypeForHour | app/src/main/java/com/example/meallogger/MainActivity.kt:203-214 | breakfast 6-9, lunch 10-14, dinner 18-22, snack otherwise, each if and only if; every hour's type has one of the four Japanese meal names |
| MainActivity.MealTypeName | app/src/main/java/com/example/meallogger/MainActivity.kt:193-200 | `breakfast` is `朝食`, `lunch` `昼食`, `dinner` `夕食`, `snack` `おやつ`, anything else `食事` |
| MainActivity.MealTypeFromReply | app/src/main/java/com/example/meallogger/MainActivity.kt:144-150 | the first meal named in the reply, in rule order, else the detected type |
| MainActivity.NamedMealBeatsYes | app/src/main/java/com/example/meallogger/MainActivity.kt:144-150 | a named meal wins over an affirmative word |
| MainActivity.PreferencesFromReply | app/src/main/java/com/example/meallogger/MainActivity.kt:173-176 | a no-preference keyword gives none, any other reply passes through |
| MainActivity.NaiSwallows | app/src/main/java/com/example/meallogger/MainActivity.kt:173-176 | any reply containing "ない" counts as no preference |
| MainActivity.MainScreen.constructor | app/src/main/java/com/example/meallogger/MainActivity.kt:35-44 | no confirmation pending, no press recorded |
| MainActivity.MainScreen.ShowConfirmButtons | app/src/main/java/com/example/meallogger/MainActivity.kt:321-325 | waits for yes/no on the result |
| MainActivity.MainScreen.ShowCorrectionConfirmButtons | app/src/main/java/com/example/meallogger/MainActivity.kt:409-414 | waits for yes/no on the correction |
| MainActivity.MainScreen.OnKeyDown | app/src/main/java/com/example/meallogger/MainActivity.kt:524-598 | the centre key records its press time only with nothing pending; yes/no act on the pending result or correction, clear it and return to no confirmation |
| MainActivity.MainScreen.OnKeyUp | app/src/main/java/com/example/meallogger/MainActivity.kt:600-627 | releasing a recorded centre press takes a photo, or suggests a meal after 500 ms or more |
| MainActivity.MainScreen.SaveSettings | app/src/main/java/com/example/meallogger/MainActivity.kt:474-486 | the settings dialog refuses the same IDs as the login, else stores the trimmed ID and the debug flag |
| CameraService.RotationDegrees | app/src/main/java/com/example/meallogger/services/CameraService.kt:113-119 | a quarter turn per rotation step, 0 for an unknown value |
| CameraService.EditFor | app/src/main/java/com/example/meallogger/services/CameraService.kt:125-140 | resize exactly when a side exceeds 1920; rotate exactly for a non-zero rotation |
| CameraService.CameraPatch.constructor | app/src/main/java/com/example/meallogger/services/CameraService.kt:203 | the patch flag starts cleared |
| CameraService.CameraPatch.ApplyThinkletPatch | app/src/main/java/com/example/meallogger/services/CameraService.kt:181-198 | once applied nothing changes; otherwise the flag is set exactly for a THINKLET model whose configuration succeeds, and configuration happens at most once |
| CameraService.CameraService.constructor | app/src/main/java/com/example/meallogger/services/CameraService.kt:26-33 | no capture use case, rotation 0, the patch applied, and the rotation invariant `Valid` established |
| CameraService.CameraService.SetDefaultTargetRotation | app/src/main/java/com/example/meallogger/services/CameraService.kt:39-52 | only the four valid rotations are taken, so the field keeps holding a valid rotation (`Valid` preserved) |
| CameraService.CameraService.OnCameraProviderReady | app/src/main/java/com/example/meallogger/services/CameraService.kt:57-86 | the capture use case is built with the current rotation, which is valid |
| CameraService.CameraService.TakePhoto | app/src/main/java/com/example/meallogger/services/CameraService.kt:89-93 | fails with `Camera not initialized` exactly when there is no capture use case; a returned use case has a valid rotation |
| CameraService.CameraService.OnImageSaved | app/src/main/java/com/example/meallogger/services/CameraService.kt:113-140 | the saved photo is resized above 1920 and rotated by the current rotation's degrees |
| MealAnalyzer.FirstFoodLabel | MealAnalyzer.kt:90-93 | the first label whose lowercase text names food, none exactly when no label does |
| MealAnalyzer.QuickAnalysis | MealAnalyzer.kt:78-114 | the text and confidence of the first food label (no earlier label is food), `料理` at 0.5 without one, `料理` at `0.3f` when labelling fails |
| MealAnalyzer.FirstFoodShifts | MealAnalyzer.kt:90-93 | non-food labels in front raise the index of the first food label by their number, and add none where there was none |
| MealAnalyzer.QuickSkipsNonFood | MealAnalyzer.kt:90-100 | non-food labels in front change nothing |
| MealAnalyzer.FoodInAnyCase | MealAnalyzer.kt:91-92 | the food test ignores case |
| MealAnalyzer.StringField | MealAnalyzer.kt:132-133 | a string under the key, else the empty string |
| MealAnalyzer.StringsOf | MealAnalyzer.kt:134 | `mapNotNull` keeps exactly the strings of the list |
| MealAnalyzer.StringsOfAllStrings | MealAnalyzer.kt:134 | a list of strings loses none, in order |
| MealAnalyzer.StringsOfConcat | MealAnalyzer.kt:134 | filtering distributes over concatenation |
| MealAnalyzer.Ingredients | MealAnalyzer.kt:134 | empty when the key is missing or not a list |
| MealAnalyzer.ItemFrom | MealAnalyzer.kt:130-137 | name, amount and ingredients read from the item map |
| MealAnalyzer.DoubleToInt | MealAnalyzer.kt:139 | `Double.toInt()` truncates toward zero and saturates at the 32-bit bounds |
| MealAnalyzer.IntField | MealAnalyzer.kt:139 | a number under the key converted with `toInt()`, else 0 |
| MealAnalyzer.RealField | MealAnalyzer.kt:140-142 | a number under the key, else 0 |
| MealAnalyzer.NutritionFrom | MealAnalyzer.kt:138-143 | each nutrient read from its key |
| MealAnalyzer.DetailedFrom | MealAnalyzer.kt:119-147 | the response converted item by item, with its nutrition and advice |
| MealAnalyzer.EmptyNutrition | MealAnalyzer.kt:138-143 | an empty nutrition object gives zeros |
| MealAnalyzer.Digits | MealAnalyzer.kt:185 | decimal digits with no leading zero |
| MealAnalyzer.DigitsRoundTrip | MealAnalyzer.kt:185 | the digits stand for the number written |
| MealAnalyzer.Decimal | MealAnalyzer.kt:185 | `Long.toString` has a minus sign exactly for a negative number |
| MealAnalyzer.DecimalInjective | MealAnalyzer.kt:185 | different numbers are written differently |
| MealAnalyzer.TempMealId | MealAnalyzer.kt:185 | the placeholder ID starts with `temp_` |
| MealAnalyzer.TempIdsDistinct | MealAnalyzer.kt:185 | meals queued at different milliseconds get different IDs |
| MealAnalyzer.SavedMeal | MealAnalyzer.kt:159-168 | the saved row carries the analysis and is synced |
| MealAnalyzer.QueuedMeal | MealAnalyzer.kt:185-196 | the queued row is unanalysed, empty and pending |
| MealAnalyzer.Merged | MealAnalyzer.kt:219-225 | a null correction keeps the stored field, and nothing else changes |
| MealAnalyzer.Corrections | MealAnalyzer.kt:230-234 | exactly the non-null corrections are sent |
| MealAnalyzer.MergeNothing | MealAnalyzer.kt:219-225 | an empty correction leaves the meal as it was |
| MealAnalyzer.MergeIdempotent | MealAnalyzer.kt:219-225 | the same correction twice is the same as once |
| MealAnalyzer.Results | MealAnalyzer.kt:39-73 | the emitted results, in order |
| MealAnalyzer.ResultsConcat | MealAnalyzer.kt:39-73 | results of a concatenation are concatenated |
| MealAnalyzer.MealAnalyzer.constructor | MealAnalyzer.kt:39-73 | nothing emitted, written or sent |
| MealAnalyzer.MealAnalyzer.Insert | MealAnalyzer.kt:170-174 | the row is recorded when the insert is accepted |
| MealAnalyzer.RowsAfterInsert | MealAnalyzer.kt:170-174 | one inserted row exactly when the database accepts it, and no result among it |
| MealAnalyzer.AnalysisEvents | MealAnalyzer.kt:39-73 | the quick result comes first; then the detailed result and its synced row, or the queued row and the offline error; the results are exactly those two; an accepted row is the third event online and the second offline; nothing is updated and no corrections are sent |
| MealAnalyzer.MealAnalyzer.Analyze | MealAnalyzer.kt:39-68 | the trace grows by exactly the events of `AnalysisEvents`: the quick result first, then the saved full result or, offline, the queued row and the offline error; the flow emits exactly those two results |
| MealAnalyzer.MealAnalyzer.UpdateMeal | MealAnalyzer.kt:211-244 | a stored meal is merged and written back before the non-null corrections are sent; when the database lookup or update throws, nothing is written and nothing is sent |
| VoiceCommon.LicenseFrom | app/src/main/java/com/example/meallogger/services/VoskVoiceService.kt:346-378 | the contents of a usable licence file on the path list, empty when none is usable |
| VoiceCommon.FirstUsableWins | app/src/main/java/com/example/meallogger/services/VoskVoiceService.kt:354-374 | the first usable file decides, whatever follows it |
| VoiceCommon.OversizedSkipped | app/src/main/java/com/example/meallogger/services/VoskVoiceService.kt:359-363 | a file over 1024 bytes is passed over |
| VoiceCommon.EmptyLicenseStopsSearch | app/src/main/java/com/example/meallogger/services/VoskVoiceService.kt:354-374 | an empty licence at the first path hides the later ones |
| VoiceCommon.GetLicenseData | app/src/main/java/com/example/meallogger/services/VoskVoiceService.kt:346-378 | the loop over the three paths returns the licence the search defines |
| VoiceCommon.LoadFrom | app/src/main/java/com/example/meallogger/services/VoskVoiceService.kt:259-289 | a recogniser over a loadable directory exactly when one exists; otherwise a changed `model` is a directory whose model alone loaded |
| VoiceCommon.NoRecognizerFailureKeepsModel | app/src/main/java/com/example/meallogger/services/VoskVoiceService.kt:259-289 | with no loadable directory and no recogniser failure, the model field is left as it was |
| VoiceCommon.LastRecognizerFailureKept | app/src/main/java/com/example/meallogger/services/VoskVoiceService.kt:259-289 | with no loadable directory, the model field ends as the last directory whose recogniser failed |
| VoiceCommon.FirstLoadableWins | app/src/main/java/com/example/meallogger/services/VoskVoiceService.kt:268-286 | the first loadable directory wins |
| VoiceCommon.Chunk | app/src/main/java/com/example/meallogger/services/VoskVoiceService.kt:429-442 | only a positive read is passed on, cut to the bytes read |
| VoiceCommon.LoopGoesOn | app/src/main/java/com/example/meallogger/services/VoskVoiceService.kt:448-455 | the loop ends on a negative count or an exception |
| VoiceCommon.ChunkFits | app/src/main/java/com/example/meallogger/services/VoskVoiceService.kt:436-440 | a chunk is never longer than the buffer or the count |
| VoskService.FinalPosts | app/src/main/java/com/example/meallogger/services/VoskVoiceService.kt:175-194 | a non-empty final text is posted, a malformed result posts the parse error, nothing else posts |
| VoskService.VoskVoiceService.constructor | app/src/main/java/com/example/meallogger/services/VoskVoiceService.kt:26-43 | nothing loaded, nothing recording |
| VoskService.VoskVoiceService.LoadVoskModel | app/src/main/java/com/example/meallogger/services/VoskVoiceService.kt:250-290 | nothing when loaded; otherwise the loop ends as the model search defines |
| VoskService.VoskVoiceService.StartListening | app/src/main/java/com/example/meallogger/services/VoskVoiceService.kt:214-248 | ignored while recording; a missing model, a missing licence, a failing XFE start and a failing recorder each post their error and leave the speech flag and the recorder as they were; only success records, with speech inactive |
| VoskService.VoskVoiceService.OnData | app/src/main/java/com/example/meallogger/services/VoskVoiceService.kt:47-203 | speech start resets and feeds the recogniser, speech continues feeding only while active, speech end posts the final result |
| VoskService.VoskVoiceService.RecordStep | app/src/main/java/com/example/meallogger/services/VoskVoiceService.kt:425-456 | one read: its bytes go to XFE, and the loop goes on only while recording after a good read |
| VoskService.VoskVoiceService.StopRecording | app/src/main/java/com/example/meallogger/services/VoskVoiceService.kt:461-495 | only while recording: XFE stops, recorder and debug stream go |
| VoskService.VoskVoiceService.Shutdown | app/src/main/java/com/example/meallogger/services/VoskVoiceService.kt:497-509 | everything stopped and released; when not recording, the speech flag, the recorder and the debug stream are left as they were |
| WebSocketService.ReplaceAll | app/src/main/java/com/example/meallogger/services/WebSocketVoiceService.kt:216 | `replace` leaves a string without the pattern unchanged |
| WebSocketService.ReplaceAfter | app/src/main/java/com/example/meallogger/services/WebSocketVoiceService.kt:216 | a prefix of `n` characters in which no occurrence starts is copied unchanged, and the rest is replaced on its own |
| WebSocketService.ReplaceFront | app/src/main/java/com/example/meallogger/services/WebSocketVoiceService.kt:216 | an occurrence in front is replaced and the scan goes on behind it |
| WebSocketService.WsUrl | app/src/main/java/com/example/meallogger/services/WebSocketVoiceService.kt:216 | the socket URL always ends with `/ws/speech` |
| WebSocketService.HttpBecomesWs | app/src/main/java/com/example/meallogger/services/WebSocketVoiceService.kt:216 | `http://host` becomes `ws://host/ws/speech` |
| WebSocketService.HttpsBecomesWss | app/src/main/java/com/example/meallogger/services/WebSocketVoiceService.kt:216 | `https://host` becomes `wss://host/ws/speech` |
| WebSocketService.OtherSchemeKept | app/src/main/java/com/example/meallogger/services/WebSocketVoiceService.kt:216 | a URL with neither scheme only gains the path |
| WebSocketService.DefaultSocketUrl | app/src/main/java/com/example/meallogger/utils/UserPreferences.kt:56-57 | the default server is reached at `ws://192.168.3.8:8000/ws/speech` |
| WebSocketService.HttpSchemeAccepted | app/src/main/java/com/example/meallogger/services/WebSocketVoiceService.kt:216-221 | a saved `http://` server passes OkHttp's scheme test, which takes only `ws`, `wss`, `http` and `https` in any case |
| WebSocketService.LeadingDigitNoScheme | app/src/main/java/com/example/meallogger/services/WebSocketVoiceService.kt:219-221 | a URL starting with a digit fails the scheme test |
| WebSocketService.BareHostRejected | app/src/main/java/com/example/meallogger/services/WebSocketVoiceService.kt:216-221 | a saved address starting with a digit and naming neither scheme derives a URL OkHttp refuses |
| WebSocketService.DefaultHostAloneRejected | app/src/main/java/com/example/meallogger/SettingsActivity.kt:84-86 | the default host saved without its scheme, which the settings screen accepts, derives a URL OkHttp refuses |
| WebSocketService.Dispatch | app/src/main/java/com/example/meallogger/services/WebSocketVoiceService.kt:228-265 | `partial` is ignored, then `final` finishes, then `error` fails, each if and only if |
| WebSocketService.PartialIgnored | app/src/main/java/com/example/meallogger/services/WebSocketVoiceService.kt:233-237 | a partial result is never delivered |
| WebSocketService.WebSocketVoiceService.constructor | app/src/main/java/com/example/meallogger/services/WebSocketVoiceService.kt:25-37 | no socket, nothing recording |
| WebSocketService.WebSocketVoiceService.ConnectWebSocket | app/src/main/java/com/example/meallogger/services/WebSocketVoiceService.kt:209-289 | nothing when a socket exists; otherwise a URL OkHttp refuses throws and opens nothing, and an accepted one opens a socket at the derived URL |
| WebSocketService.WebSocketVoiceService.Send | app/src/main/java/com/example/meallogger/services/WebSocketVoiceService.kt:65-84 | a non-empty buffer goes over an existing socket |
| WebSocketService.WebSocketVoiceService.OnData | app/src/main/java/com/example/meallogger/services/WebSocketVoiceService.kt:45-95 | speech start connects and sends, except that a refused URL throws before anything is sent; speech continues sending while active; speech end sends the last buffer |
| WebSocketService.WebSocketVoiceService.CloseSocket | app/src/main/java/com/example/meallogger/services/WebSocketVoiceService.kt:243-244 | the current socket is closed with code 1000 and forgotten |
| WebSocketService.WebSocketVoiceService.OnMessage | app/src/main/java/com/example/meallogger/services/WebSocketVoiceService.kt:228-265 | a final result closes the socket and is posted, an error closes it and posts the error, anything else changes nothing |
| WebSocketService.WebSocketVoiceService.OnFailure | app/src/main/java/com/example/meallogger/services/WebSocketVoiceService.kt:279-287 | the socket is dropped and the failure posted |
| WebSocketService.WebSocketVoiceService.StartListening | app/src/main/java/com/example/meallogger/services/WebSocketVoiceService.kt:98-123 | ignored while recording; licence, XFE start and recorder each post their error on failure and leave the speech flag and the recorder as they were; only success records, with speech inactive |
| WebSocketService.WebSocketVoiceService.RecordStep | app/src/main/java/com/example/meallogger/services/WebSocketVoiceService.kt:336-367 | one read, as in the on-device service |
| WebSocketService.WebSocketVoiceService.StopRecording | app/src/main/java/com/example/meallogger/services/WebSocketVoiceService.kt:372-398 | only while recording: XFE stops, recorder goes, socket closed |
| WebSocketService.WebSocketVoiceService.Shutdown | app/src/main/java/com/example/meallogger/services/WebSocketVoiceService.kt:400-408 | stopped and XFE released; a recording session's socket is closed with `Recording stopped`; when not recording, the speech flag, the recorder, the socket and the closes are left as they were |

## Left out

- Threads, coroutines, `Flow` collection and `Handler.post` delivery. Posted callbacks are recorded when posted, in program order. Whether a posted callback is non-null when it runs is recorded only as the `hasErrorCallback` flag.
- `recordAudioLoop` as a running thread: one turn of the loop is modelled (`RecordStep`), and the caller repeats it.
- MealAnalyzer.MealAnalyzer.Analyze: the outer `catch` is not modelled. It can be reached only when `emit` or the collector throws. For the same reason there is no property "a total failure emits a single error".
- MealAnalyzer.MealAnalyzer.Analyze: Gson serialisation is library code. The JSON text of the items and the nutrition is a parameter. The Room DAO is not in the source: `getMealById` is a parameter, and inserts and updates are trace events.
- MealAnalyzer.RealField: `toFloat()` rounding to single precision is not modelled. Only the constant `0.3f` is written out exactly. The image decoding and ML Kit labelling become an optional label list, where `None` means labelling threw.
- AudioResampler.Downsample: modelled only for integer ratios `sourceRate / targetRate`. A fractional ratio needs floating-point positions, which the model does not have.
- Beamforming.BeamformingProcessor.constructor: `calculateDelays` (microphone geometry, the speed of sound, `sqrt`) is floating point. The delay table is a constructor parameter instead.
- Beamforming.BeamformingProcessor.ProcessMultiChannel: a wrong-sized input is returned as the same value. Array identity, and so aliasing of the returned array, is not modelled.
- Text.Lower: `lowercase()` is modelled for ASCII letters only. The keywords the app looks for are Japanese or lowercase ASCII.
- VoiceCommon.GetLicenseData: the licence is kept as bytes. `toString(Charset.defaultCharset())` is not modelled, so "empty" means an empty file. A read that throws is the file's `readable` flag.
- The XFE configuration builders (source, VAD and localizer settings) and `registerVadCallback` are library setup with no observable effect in the model.
- VoskService.VoskVoiceService.OnData: only whether the debug file is open is modelled. The recorded bytes, file names and logging are not.
- VoskService.VoskVoiceService.StopRecording: the exceptions caught inside `stopRecording` are not modelled, and neither are `recordingJob` cancellation and `AudioRecord.release`.
- WebSocketService.WebSocketVoiceService.Shutdown: the OkHttp executor shutdown is not modelled.
- WebSocketService.WebSocketVoiceService.ConnectWebSocket: the server URL is a parameter; `UserPreferences` storage is not modelled. `onOpen`, `onClosing`, `onClosed` and binary messages only log. Of OkHttp's URL parsing only the scheme test is modelled; whether the host, port and path parse is the parameter `restParses`.
- WebSocketService.WebSocketVoiceService.OnData: what the XFE library does with an exception thrown out of its callback is not modelled; the model stops the callback there.
- CameraService.CameraService.OnImageSaved: bitmap scaling, JPEG compression and file I/O are not modelled; what is modelled is whether the photo is resized and by how many degrees it is rotated. Preview binding in `startCamera` is not modelled.
- MealTracking.MealTrackingService.HandleConfirmYes: the reply is launched in a coroutine. The model performs it at once.
- MainActivity: speech output, the WebSocket dialogue plumbing, meal suggestion fetching, camera start and permission handling are left out. Only the decision rules and the button state machine are modelled.
- Not part of this model: `VoiceService.kt`, `CameraManager.kt`, `MealAnalysisService.kt`, `SettingsActivity.kt`, `ApiService.kt`, `ApiClient.kt`, `MealRecord.kt`, `EmptyAudioPlayer.kt`, the body of `UserPreferences.kt` (only its default server URL is used) and the Gradle files. Each of these is Android or library plumbing.
