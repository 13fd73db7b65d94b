# Speech recognition session controller, modelled in Dafny

This project models the session controller of a Capacitor speech-recognition
plugin on its two native platforms, and proves properties of it.

- **Android** (`SpeechRecognitionPlugin.java`). The controller holds:
  - a possibly-null recognizer;
  - a `listening` flag;
  - the last partial-results list it emitted (the cache);
  - a listener that carries the call of the current session and its partial-results mode.

  It handles `start`, `stop` and `destroyRecognizer`, and the recognizer's
  listener callbacks. Two pure helpers go with it: the error-code table
  (`getErrorText`) and the permission names (`permissionStateValue`).
- **iOS** (`SpeechRecognitionPlugin.swift`). The controller holds:
  - the audio engine's running state and the installed tap;
  - the recognition request and task, and the recognizer;
  - the active call and the current options.

  It handles `start` in its two steps:
  - the synchronous guard, which records the call and options and asks for
    the microphone;
  - the block the microphone answer posts, which runs `beginRecognition`
    (setup, then the resolve-early rule).

  It also handles `stop`, `cleanupRecognition` and the recognition task's
  result handler. Its pure helpers are `buildMatches`,
  `isSpeechPermissionGranted` and `permissionState`.

Layout:

- `bridge.dfy` (`Bridge`): what crosses the bridge to JavaScript. Both
  controllers append call replies and listener notifications to one ordered
  log, `sent`. A call's status is the first reply sent for it, because a
  JavaScript promise settles once.
- `android_errors.dfy`, `android_options.dfy`: the Android error table with
  `Integer.toString`, the start options and their defaults, the recognizer
  intent, and the permission names.
- `android_session.dfy`, `ios_session.dfy`: each controller as a state
  machine on values. There is one function per operation or callback, and
  the lemmas about sequences of operations live here.
- `android_plugin.dfy`, `ios_plugin.dfy`: each plugin as a class whose
  fields the methods update in place. Every method is proved to leave the
  state that the matching session function gives.
- `ios_helpers.dfy`: authorization, and `buildMatches` as a loop proved to
  return a prefix.

Each block the source posts to a queue (`post`, `runOnUiThread`,
`DispatchQueue.main.async`) is modelled as running whole and in the order
it was posted. A block an operation posts runs in the same step as the
operation, except the iOS microphone answer, which is a step of its own
(see "## Left out"). The platform recognizer and audio engine are represented
only by what the controller can observe:
- on Android, whether the reference is null, how many instances were
  created and destroyed (ghost counters), and the intent last started;
- on iOS, the engine's running flag and the tap flag.

Three behaviours of the Android listener are easy to miss:
- On Android, `onResults` does not clear `listening`; only `onEndOfSpeech`,
  `stop`, `onError`, the popup result and a failed popup launch do.
- `onBeginningOfSpeech` emits the `started` event without setting
  `listening`.
- In partial-results mode, `onResults` emits an ordinary `partialResults`
  event, not a separate "final result" event.

Three lemmas record a behaviour of the code: a start call in a session
without partial results can be left pending for good.
- On iOS, `stop` resolves its own call and then clears `activeCall` while
  the start call is still pending (`IosSession.StopOrphansPendingStart`).
  After that, a late task callback replies to no call at all
  (`IosSession.IdleCallbackRepliesToNoCall`).
- On Android, the next `start` rebinds the listener to its own call
  (`AndroidSession.RestartRebindsListener`).

On iOS, `Consistent` holds after every modelled step, in every
interleaving of those steps. It
says the engine, tap, request, recognizer and task exist together, and the
call and options are recorded together. The stronger `Steady` says the
plugin is idle, or runs a session for the call and options its task was
started with. `Steady` needs more: each microphone answer must arrive
before any other call, and nothing may run between a block and the
cleanup it posts. Three lemmas show what breaks it:
- `IosSession.StopDuringPromptIsUndone`: a `stop` during the microphone
  prompt is undone by a later grant. The engine then runs with no active
  call, and the start call is never settled.
- `IosSession.SecondStartDuringPrompt`: a second `start` during the prompt
  passes the guard and replaces the recorded call and options.
- `IosSession.StartBeforePostedCleanup`: a `start` handled after the
  microphone-denial block but before the cleanup that block posts is
  erased by that cleanup. The later grant then runs a session with no
  active call.

## Model

| member | source | states |
|---|---|---|
| `Bridge.EventName` | android/src/main/java/app/capgo/speechrecognition/Constants.java:11-14 | each event kind is delivered under its own listener name: listeningState, partialResults, segmentResults, endOfSegmentedSession |
| `Bridge.StatusText` | android/src/main/java/app/capgo/speechrecognition/SpeechRecognitionPlugin.java:366-390 | the status field of a listeningState event reads "started" exactly for a start and "stopped" exactly for a stop |
| `AndroidErrors.Classify` | android/src/main/java/app/capgo/speechrecognition/SpeechRecognitionPlugin.java:505-527 | reading an integer code yields a well-formed code whose value is that integer; it is `Other` exactly when the switch has no case for the integer |
| `AndroidErrors.ClassifyValue` | android/src/main/java/app/capgo/speechrecognition/SpeechRecognitionPlugin.java:505-527 | reading back the value of a well-formed code gives the same code (round trip) |
| `AndroidErrors.IntToString` | android/src/main/java/app/capgo/speechrecognition/SpeechRecognitionPlugin.java:527 | Integer.toString output is non-empty and starts with '-' exactly for negative numbers |
| `AndroidErrors.IntToStringInjective` | android/src/main/java/app/capgo/speechrecognition/SpeechRecognitionPlugin.java:527 | different integers are written as different strings |
| `AndroidErrors.NatToStringInjective` | android/src/main/java/app/capgo/speechrecognition/SpeechRecognitionPlugin.java:527 | different natural numbers have different decimal digit strings |
| `AndroidErrors.Message` | android/src/main/java/app/capgo/speechrecognition/SpeechRecognitionPlugin.java:504-529 | each known code has a fixed message shorter than the default prefix; an unknown code's message is the prefix followed by the code |
| `AndroidErrors.MessageInjective` | android/src/main/java/app/capgo/speechrecognition/SpeechRecognitionPlugin.java:506-525 | the ten known codes have ten different messages |
| `AndroidErrors.GetErrorText` | android/src/main/java/app/capgo/speechrecognition/SpeechRecognitionPlugin.java:504-529 | total over all integers; a code outside the ten known ones gets "Didn't understand, please try again. Error code: " followed by the code |
| `AndroidErrors.GetErrorTextInjective` | android/src/main/java/app/capgo/speechrecognition/SpeechRecognitionPlugin.java:504-529 | distinct codes always give distinct messages, so the message identifies the code, unknown codes included |
| `AndroidOptions.ReadOptions` | android/src/main/java/app/capgo/speechrecognition/SpeechRecognitionPlugin.java:78-83 | a supplied option is used as given; an absent one falls back to the device locale, MAX_RESULTS (5), no prompt, false, false and 0 |
| `AndroidOptions.DefaultOptions` | android/src/main/java/app/capgo/speechrecognition/SpeechRecognitionPlugin.java:78-83 | a start call with no options reads as (device locale, 5, no prompt, no partial results, no popup, no silence) |
| `AndroidOptions.BuildIntent` | android/src/main/java/app/capgo/speechrecognition/SpeechRecognitionPlugin.java:195-211 | the intent always carries the free-form language model, language, maxResults, calling package, partial-results and dictation flags; the segmented-session flag and both silence lengths are present iff allowForSilence > 0; the prompt is present iff one was given |
| `AndroidOptions.PermissionStateValue` | android/src/main/java/app/capgo/speechrecognition/SpeechRecognitionPlugin.java:332-343 | "granted" exactly for GRANTED, "denied" exactly for DENIED, "prompt" exactly for PROMPT and PROMPT_WITH_RATIONALE |
| `AndroidSession.Loaded` | android/src/main/java/app/capgo/speechrecognition/SpeechRecognitionPlugin.java:45-56 | after load there is exactly one live recognizer, nothing is listening, the cache is empty and nothing was sent |
| `AndroidSession.RebuildRecognizer` | android/src/main/java/app/capgo/speechrecognition/SpeechRecognitionPlugin.java:312-330 | a recognizer is created only when none exists; none is ever destroyed; afterwards one is present and its listener carries this call and mode; nothing else changes; at most one instance stays alive |
| `AndroidSession.BeginListening` | android/src/main/java/app/capgo/speechrecognition/SpeechRecognitionPlugin.java:186-258 | the cache is reset and nothing is destroyed; the popup path leaves recognizer, creation count, listener and started intent alone; the inline path creates a recognizer only if none exists, binds the listener to this call and mode, starts the built intent, sets listening, and resolves the call at once iff partial results are on; a launch exception rejects the call, leaves the started intent alone, and on the inline path leaves listening as it was |
| `AndroidSession.Start` | android/src/main/java/app/capgo/speechrecognition/SpeechRecognitionPlugin.java:64-96 | unavailable recognition is answered with NOT_AVAILABLE before the permission is looked at; a permission other than GRANTED is rejected with MISSING_PERMISSION; in both cases nothing but the reply changes; otherwise listening begins with the read options |
| `AndroidSession.StopListening` | android/src/main/java/app/capgo/speechrecognition/SpeechRecognitionPlugin.java:260-282 | the recognizer reference and the create/destroy counts are unchanged; the cache is empty, listening is off, nothing is sent |
| `AndroidSession.Stop` | android/src/main/java/app/capgo/speechrecognition/SpeechRecognitionPlugin.java:98-108 | the stop call is resolved, then the state is that of stopListening |
| `AndroidSession.DestroyRecognizer` | android/src/main/java/app/capgo/speechrecognition/SpeechRecognitionPlugin.java:284-296 | afterwards no recognizer is referenced; one destroy is counted iff one existed; nothing else changes |
| `AndroidSession.ListeningResult` | android/src/main/java/app/capgo/speechrecognition/SpeechRecognitionPlugin.java:161-184 | the popup result clears listening when a call is present and does nothing otherwise |
| `AndroidSession.OnBeginningOfSpeech` | android/src/main/java/app/capgo/speechrecognition/SpeechRecognitionPlugin.java:361-372 | emits listeningState started and changes nothing else |
| `AndroidSession.OnEndOfSpeech` | android/src/main/java/app/capgo/speechrecognition/SpeechRecognitionPlugin.java:380-396 | clears listening and emits listeningState stopped; the recognizer is kept |
| `AndroidSession.OnError` | android/src/main/java/app/capgo/speechrecognition/SpeechRecognitionPlugin.java:398-427 | empties the cache, clears listening, destroys and drops the recognizer (one destroy iff one existed); rejects the attached call with getErrorText(code), and sends nothing when no call is attached |
| `AndroidSession.OnResults` | android/src/main/java/app/capgo/speechrecognition/SpeechRecognitionPlugin.java:429-458 | with a call attached, resolves {status: "success", matches} when partial results are off and emits partialResults when they are on; with no call it sends nothing; a null list is empty; the cache is empty afterwards |
| `AndroidSession.OnSegmentResults` | android/src/main/java/app/capgo/speechrecognition/SpeechRecognitionPlugin.java:480-492 | a null list is ignored; otherwise one segmentResults event with the list, and no other change |
| `AndroidSession.OnEndOfSegmentedSession` | android/src/main/java/app/capgo/speechrecognition/SpeechRecognitionPlugin.java:494-498 | emits endOfSegmentedSession and changes nothing else |
| `AndroidSession.CallbackEventsOnTheWire` | android/src/main/java/app/capgo/speechrecognition/SpeechRecognitionPlugin.java:361-498 | onBeginningOfSpeech and onEndOfSpeech send a listeningState event with status "started" and "stopped"; onSegmentResults sends segmentResults with the list; onEndOfSegmentedSession sends endOfSegmentedSession |
| `AndroidSession.PartialResultsRule` | android/src/main/java/app/capgo/speechrecognition/SpeechRecognitionPlugin.java:460-478 | a partial list is emitted and cached iff it is non-null, non-empty and differs from the cache; otherwise the state is unchanged |
| `AndroidSession.RepeatedPartialEmitsOnce` | android/src/main/java/app/capgo/speechrecognition/SpeechRecognitionPlugin.java:460-478 | the same partial list twice in a row gives exactly the state of delivering it once, with at most one event |
| `AndroidSession.RunPartialsSent` | android/src/main/java/app/capgo/speechrecognition/SpeechRecognitionPlugin.java:460-478 | a run of partial callbacks appends exactly one partialResults event per emitted list, in order, and nothing else |
| `AndroidSession.RunPartialsCache` | android/src/main/java/app/capgo/speechrecognition/SpeechRecognitionPlugin.java:460-478 | after a run of partial callbacks the cache holds the last emitted list, or the old cache if nothing was emitted |
| `AndroidSession.RunPartialsFrame` | android/src/main/java/app/capgo/speechrecognition/SpeechRecognitionPlugin.java:460-478 | a run of partial callbacks changes nothing but the cache and the output |
| `AndroidSession.EmittedNeverRepeats` | android/src/main/java/app/capgo/speechrecognition/SpeechRecognitionPlugin.java:467 | no emitted list is empty, the first differs from the cache, and no two consecutive emitted lists are equal |
| `AndroidSession.PartialEventsAppend` | android/src/main/java/app/capgo/speechrecognition/SpeechRecognitionPlugin.java:469-471 | the events for two runs of emitted lists are the events of the first followed by those of the second |
| `AndroidSession.StopKeepsRecognizer` | android/src/main/java/app/capgo/speechrecognition/SpeechRecognitionPlugin.java:267-277 | stop never drops or destroys the recognizer, and stopping twice gives the state of stopping once |
| `AndroidSession.StopThenStartReuses` | android/src/main/java/app/capgo/speechrecognition/SpeechRecognitionPlugin.java:313-324 | stop followed by an inline start reuses the recognizer: no instance is created or destroyed |
| `AndroidSession.ErrorThenStartCreates` | android/src/main/java/app/capgo/speechrecognition/SpeechRecognitionPlugin.java:408-417 | after an error no recognizer is referenced, and the next inline start creates exactly one new instance, with still at most one alive |
| `AndroidSession.ErrorSettlesAttachedCall` | android/src/main/java/app/capgo/speechrecognition/SpeechRecognitionPlugin.java:424-426 | an error settles a still-pending attached call as rejected with the code's message, and leaves a settled call's outcome unchanged |
| `AndroidSession.PartialSessionCallNeverRejected` | android/src/main/java/app/capgo/speechrecognition/SpeechRecognitionPlugin.java:248-250 | a call started in partial-results mode is resolved at once, and a later error does not change that |
| `AndroidSession.ScenarioFinalResult` | android/src/main/java/app/capgo/speechrecognition/SpeechRecognitionPlugin.java:437-439 | start without partial results, then onResults(["hello world"]): the call settles as {status: "success", matches: ["hello world"]} and the cache is empty |
| `AndroidSession.ScenarioRepeatedPartial` | android/src/main/java/app/capgo/speechrecognition/SpeechRecognitionPlugin.java:467-471 | start in partial mode resolves the call; the partial list ["hi"] delivered twice produces exactly one partialResults event |
| `AndroidSession.ScenarioUnauthorized` | android/src/main/java/app/capgo/speechrecognition/SpeechRecognitionPlugin.java:72-76 | start without permission settles the call as rejected with MISSING_PERMISSION and leaves every other part of the state alone |
| `AndroidSession.RestartRebindsListener` | android/src/main/java/app/capgo/speechrecognition/SpeechRecognitionPlugin.java:326-329 | after stop and a new inline start the listener carries the new call; the first call, never answered, stays pending |
| `AndroidPlugin.SpeechRecognitionPlugin.constructor` | android/src/main/java/app/capgo/speechrecognition/SpeechRecognitionPlugin.java:45-56 | the plugin starts in the loaded state with its invariant (at most one live recognizer) |
| `AndroidPlugin.SpeechRecognitionPlugin.IsListening` | android/src/main/java/app/capgo/speechrecognition/SpeechRecognitionPlugin.java:130-133 | resolves the call with the listening flag and changes nothing else |
| `AndroidPlugin.SpeechRecognitionPlugin.CheckPermissions` | android/src/main/java/app/capgo/speechrecognition/SpeechRecognitionPlugin.java:135-140 | resolves the call with the permission's name and changes nothing else |
| `AndroidPlugin.SpeechRecognitionPlugin.Start` | android/src/main/java/app/capgo/speechrecognition/SpeechRecognitionPlugin.java:64-96 | updates the fields to the state Start gives and keeps the one-live-recognizer invariant; on either precondition failure the recognizer, listening flag and cache are untouched |
| `AndroidPlugin.SpeechRecognitionPlugin.BeginListening` | android/src/main/java/app/capgo/speechrecognition/SpeechRecognitionPlugin.java:186-258 | updates the fields to the state BeginListening gives, keeping the invariant |
| `AndroidPlugin.SpeechRecognitionPlugin.RebuildRecognizerLocked` | android/src/main/java/app/capgo/speechrecognition/SpeechRecognitionPlugin.java:312-330 | updates the fields to the state RebuildRecognizer gives, keeping the invariant |
| `AndroidPlugin.SpeechRecognitionPlugin.Stop` | android/src/main/java/app/capgo/speechrecognition/SpeechRecognitionPlugin.java:98-108 | resolves the stop call, then stops listening as Stop gives |
| `AndroidPlugin.SpeechRecognitionPlugin.StopListening` | android/src/main/java/app/capgo/speechrecognition/SpeechRecognitionPlugin.java:260-282 | updates the fields as StopListening gives; the recognizer reference and the destroy count are unchanged |
| `AndroidPlugin.SpeechRecognitionPlugin.DestroyRecognizer` | android/src/main/java/app/capgo/speechrecognition/SpeechRecognitionPlugin.java:284-296 | updates the fields as DestroyRecognizer gives, keeping the invariant |
| `AndroidPlugin.SpeechRecognitionPlugin.ListeningResult` | android/src/main/java/app/capgo/speechrecognition/SpeechRecognitionPlugin.java:181-183 | clears listening as ListeningResult gives |
| `AndroidPlugin.SpeechRecognitionPlugin.OnBeginningOfSpeech` | android/src/main/java/app/capgo/speechrecognition/SpeechRecognitionPlugin.java:361-372 | appends the started event as OnBeginningOfSpeech gives |
| `AndroidPlugin.SpeechRecognitionPlugin.OnEndOfSpeech` | android/src/main/java/app/capgo/speechrecognition/SpeechRecognitionPlugin.java:380-396 | clears listening and appends the stopped event as OnEndOfSpeech gives |
| `AndroidPlugin.SpeechRecognitionPlugin.OnError` | android/src/main/java/app/capgo/speechrecognition/SpeechRecognitionPlugin.java:398-427 | afterwards no recognizer, listening off and an empty cache, as OnError gives, keeping the invariant |
| `AndroidPlugin.SpeechRecognitionPlugin.OnResults` | android/src/main/java/app/capgo/speechrecognition/SpeechRecognitionPlugin.java:429-458 | resolves or emits as OnResults gives; the cache is empty afterwards |
| `AndroidPlugin.SpeechRecognitionPlugin.OnPartialResults` | android/src/main/java/app/capgo/speechrecognition/SpeechRecognitionPlugin.java:460-478 | emits and caches only a new non-empty list, as OnPartialResults gives |
| `AndroidPlugin.SpeechRecognitionPlugin.OnSegmentResults` | android/src/main/java/app/capgo/speechrecognition/SpeechRecognitionPlugin.java:480-492 | emits a non-null segment list, as OnSegmentResults gives |
| `AndroidPlugin.SpeechRecognitionPlugin.OnEndOfSegmentedSession` | android/src/main/java/app/capgo/speechrecognition/SpeechRecognitionPlugin.java:494-498 | emits endOfSegmentedSession, as OnEndOfSegmentedSession gives |
| `IosHelpers.RawValue` | ios/Sources/SpeechRecognitionPlugin/SpeechRecognitionPlugin.swift:6-10 | the three permission states have the raw values "granted", "denied" and "prompt" |
| `IosHelpers.IsSpeechPermissionGranted` | ios/Sources/SpeechRecognitionPlugin/SpeechRecognitionPlugin.swift:259-268 | true exactly for an authorized status; not determined, denied, restricted and unknown future statuses are all refused |
| `IosHelpers.PermissionStateOf` | ios/Sources/SpeechRecognitionPlugin/SpeechRecognitionPlugin.swift:270-283 | denied iff speech is denied or restricted or the microphone is denied; otherwise prompt iff either is undetermined; granted iff speech is authorized (or a future status) and the microphone is granted, so denied takes precedence over prompt |
| `IosHelpers.PermissionStateAgreesWithStartGuard` | ios/Sources/SpeechRecognitionPlugin/SpeechRecognitionPlugin.swift:259-283 | a reported "granted" passes start's speech check except for a status unknown to the SDK, where checkPermissions says granted but start refuses; passing the check with a granted microphone reports granted, and reports denied only when the microphone is denied |
| `IosHelpers.KeptCount` | ios/Sources/SpeechRecognitionPlugin/SpeechRecognitionPlugin.swift:253 | keeps no more than the count and no more than maxResults, and stops short of the count only at maxResults (or at 0 when maxResults is not positive) |
| `IosHelpers.Truncated` | ios/Sources/SpeechRecognitionPlugin/SpeechRecognitionPlugin.swift:251-257 | the matches are a prefix of the transcriptions, in original order, of length min(maxResults, count) |
| `IosHelpers.BuildMatches` | ios/Sources/SpeechRecognitionPlugin/SpeechRecognitionPlugin.swift:251-257 | the loop over every transcription, appending while fewer than maxResults are kept, returns exactly that prefix |
| `IosSession.ReadOptions` | ios/Sources/SpeechRecognitionPlugin/SpeechRecognitionPlugin.swift:57-62 | absent options default to the current locale, 5 results, no partial results and no punctuation |
| `IosSession.Initial` | ios/Sources/SpeechRecognitionPlugin/SpeechRecognitionPlugin.swift:28-34 | a new plugin is idle and has sent nothing |
| `IosSession.Cleanup` | ios/Sources/SpeechRecognitionPlugin/SpeechRecognitionPlugin.swift:217-241 | afterwards the engine is stopped, the tap is removed, and request, task, recognizer, options and active call are nil; a stopped event is appended iff notifyStop |
| `IosSession.Abort` | ios/Sources/SpeechRecognitionPlugin/SpeechRecognitionPlugin.swift:133-153 | a failed setup rejects the call with its message and leaves the plugin idle without a stop event |
| `IosSession.BeginRecognition` | ios/Sources/SpeechRecognitionPlugin/SpeechRecognitionPlugin.swift:132-208 | any setup failure rejects the call with its message and leaves the plugin idle; on success the engine runs with a task for these options, a started event is sent, and then the call is resolved iff partial results are on; the recorded call and options are neither read nor changed, and when they are this call's a full session is running |
| `IosSession.RequestStart` | ios/Sources/SpeechRecognitionPlugin/SpeechRecognitionPlugin.swift:44-68 | the synchronous part of start: "already running" is checked before authorization and both refusals only reply; otherwise the call and options are recorded and nothing else changes or is sent; from a consistent state the plugin is then awaiting the microphone answer |
| `IosSession.MicrophoneAnswer` | ios/Sources/SpeechRecognitionPlugin/SpeechRecognitionPlugin.swift:68-80 | a refusal rejects the captured call with "User denied microphone access." and leaves the plugin idle; a grant with a failing setup rejects with the setup's message and leaves it idle; a successful grant runs the engine with a task for the captured options; consistency is kept; awaiting this call and options, the result is steady |
| `IosSession.Start` | ios/Sources/SpeechRecognitionPlugin/SpeechRecognitionPlugin.swift:44-82 | start with its microphone answer arriving before any other call: a running engine or existing task is refused as "already running" before authorization is checked; missing speech authorization is refused next; neither touches the state; a denied microphone rejects and cleans up; a steady plugin stays steady |
| `IosSession.Stop` | ios/Sources/SpeechRecognitionPlugin/SpeechRecognitionPlugin.swift:84-88 | the stop call is resolved before the posted cleanup runs; afterwards the plugin is idle and a stopped event follows the reply |
| `IosSession.OnResult` | ios/Sources/SpeechRecognitionPlugin/SpeechRecognitionPlugin.swift:187-202 | in partial mode the kept matches are emitted first; without it a non-final result changes nothing, and a final one resolves the active call (if any) with the kept matches; a final result always leaves the plugin idle with a stop event last; a non-final one changes only the output |
| `IosSession.OnTaskCallback` | ios/Sources/SpeechRecognitionPlugin/SpeechRecognitionPlugin.swift:185-207 | keeps the consistency invariant and the steady invariant, and an error always leaves the plugin idle |
| `IosSession.ListeningMeansSession` | ios/Sources/SpeechRecognitionPlugin/SpeechRecognitionPlugin.swift:90-92 | in every consistent state the engine runs exactly while a task exists, and in a steady state exactly while a session is active |
| `IosSession.CleanupTwice` | ios/Sources/SpeechRecognitionPlugin/SpeechRecognitionPlugin.swift:217-241 | cleaning up twice gives the state of cleaning up once, apart from a second stop event |
| `IosSession.StartRefusalKeepsSession` | ios/Sources/SpeechRecognitionPlugin/SpeechRecognitionPlugin.swift:45-55 | both start refusals leave activeCall, currentOptions and every other field as they were; only the reply is sent |
| `IosSession.StartWhileActive` | ios/Sources/SpeechRecognitionPlugin/SpeechRecognitionPlugin.swift:45-49 | while a session runs, start settles its call as "already running" whatever the authorization |
| `IosSession.StartResolvesIffPartial` | ios/Sources/SpeechRecognitionPlugin/SpeechRecognitionPlugin.swift:172-183 | after a successful start the started event comes first, and the call is resolved iff partial results are on; otherwise it stays pending |
| `IosSession.PartialModeEmitsEveryResult` | ios/Sources/SpeechRecognitionPlugin/SpeechRecognitionPlugin.swift:189-192 | in partial mode the same result twice produces two partialResults events: nothing is deduplicated |
| `IosSession.NonFinalResultIsSilent` | ios/Sources/SpeechRecognitionPlugin/SpeechRecognitionPlugin.swift:193-197 | without partial mode a non-final result changes nothing |
| `IosSession.ScenarioFinalResult` | ios/Sources/SpeechRecognitionPlugin/SpeechRecognitionPlugin.swift:193-201 | a session without partial results ends with its final result: the call settles with the kept matches, the last event is a stop, and the plugin is idle |
| `IosSession.ErrorRejectsActiveCall` | ios/Sources/SpeechRecognitionPlugin/SpeechRecognitionPlugin.swift:243-249 | a task error rejects the active call before the posted cleanup clears it, and leaves the plugin idle |
| `IosSession.IdleCallbackRepliesToNoCall` | ios/Sources/SpeechRecognitionPlugin/SpeechRecognitionPlugin.swift:185-207 | a callback arriving after cleanup only appends notifications; it replies to no call |
| `IosSession.StopOrphansPendingStart` | ios/Sources/SpeechRecognitionPlugin/SpeechRecognitionPlugin.swift:84-88 | stop during a session without partial results leaves the plugin idle with the start call still pending and no longer referenced |
| `IosSession.StopDuringPromptIsUndone` | ios/Sources/SpeechRecognitionPlugin/SpeechRecognitionPlugin.swift:68-88 | stop during the microphone prompt, then a granted answer: the engine runs with no active call after the stop event, the plugin is not steady, and the start call stays pending even after the final result |
| `IosSession.SecondStartDuringPrompt` | ios/Sources/SpeechRecognitionPlugin/SpeechRecognitionPlugin.swift:45-65 | a second start during the first one's prompt passes the guard, replies to neither call and replaces the recorded call and options; the first grant then runs a session with the second call recorded, which is not steady |
| `IosSession.StartBeforePostedCleanup` | ios/Sources/SpeechRecognitionPlugin/SpeechRecognitionPlugin.swift:68-76 | with the microphone denial's reply and its posted cleanup as two steps, a start between them passes the guard and is erased by the cleanup; the later grant runs the engine with no active call, not steady, and the start call stays pending |
| `IosPlugin.SpeechRecognitionPlugin.constructor` | ios/Sources/SpeechRecognitionPlugin/SpeechRecognitionPlugin.swift:28-34 | a new plugin is idle |
| `IosPlugin.SpeechRecognitionPlugin.IsListening` | ios/Sources/SpeechRecognitionPlugin/SpeechRecognitionPlugin.swift:90-92 | resolves the call with the engine's running flag and changes nothing else |
| `IosPlugin.SpeechRecognitionPlugin.CheckPermissions` | ios/Sources/SpeechRecognitionPlugin/SpeechRecognitionPlugin.swift:102-104 | resolves the call with the combined permission state and changes nothing else |
| `IosPlugin.SpeechRecognitionPlugin.Start` | ios/Sources/SpeechRecognitionPlugin/SpeechRecognitionPlugin.swift:44-68 | updates the fields as RequestStart gives; it reports that the microphone was asked for exactly when both guards pass, with the options the answer will use, and the plugin is then awaiting that answer |
| `IosPlugin.SpeechRecognitionPlugin.OnMicrophoneAnswer` | ios/Sources/SpeechRecognitionPlugin/SpeechRecognitionPlugin.swift:68-80 | updates the fields as MicrophoneAnswer gives, keeping consistency |
| `IosPlugin.SpeechRecognitionPlugin.BeginRecognition` | ios/Sources/SpeechRecognitionPlugin/SpeechRecognitionPlugin.swift:132-208 | updates the fields to the state BeginRecognition gives, from any consistent state, keeping consistency |
| `IosPlugin.SpeechRecognitionPlugin.Stop` | ios/Sources/SpeechRecognitionPlugin/SpeechRecognitionPlugin.swift:84-88 | resolves the stop call, then cleans up with a stop event |
| `IosPlugin.SpeechRecognitionPlugin.CleanupRecognition` | ios/Sources/SpeechRecognitionPlugin/SpeechRecognitionPlugin.swift:217-241 | resets every session field as Cleanup gives, from any state |
| `IosPlugin.SpeechRecognitionPlugin.OnTaskCallback` | ios/Sources/SpeechRecognitionPlugin/SpeechRecognitionPlugin.swift:185-207 | builds the matches with the loop and updates the fields as OnTaskCallback gives |
| `IosPlugin.SpeechRecognitionPlugin.HandleRecognitionError` | ios/Sources/SpeechRecognitionPlugin/SpeechRecognitionPlugin.swift:243-249 | rejects the active call, then cleans up with a stop event |

## Left out

- Locks and thread hand-off are not modelled: the Android `ReentrantLock`,
  `post` and `runOnUiThread`, and the iOS `DispatchQueue.main.async`. Every
  posted block runs whole and in posting order.
- Android `start` is one step: its synchronous part and the block it posts
  run together. Operations that interleave between those parts are not
  modelled there. iOS `start` is two steps, `RequestStart` and
  `MicrophoneAnswer`, and any call may come between them.
- The cleanup that iOS `cleanupRecognition` posts (swift:218) runs in the
  same step as the block that posts it. That covers the four failure exits
  of `beginRecognition`, the microphone denial, the final result and
  `handleRecognitionError`. The operations do not model a call handled
  between such a block and its cleanup. Such a call can record a start
  that the cleanup then erases, leaving a session with no active call. So
  `Consistent` and `Steady` are claims about the modelled steps only.
  `IosSession.StartBeforePostedCleanup` builds one such order by hand.
  Likewise the block that Android `stop` posts runs in the step of `stop`.
- The recognizer's `cancel` and `stopListening`, `setRecognitionListener`,
  and the iOS `endAudio`, task `cancel`, `removeTap` and `prepare` are
  platform calls. They have no effect on the modelled state beyond the
  fields they reset. Which platform methods are called is not recorded.
- Platform failures are parameters, because they come from foreign code:
  - Android `failure`: an exception from `startActivityForResult` (popup) or
    from `startListening` (java:246). It is raised after the recognizer was
    rebuilt.
  - iOS `Platform`: locale support, recognizer availability, audio-session
    and engine-start errors;
  - the microphone answer.
- Availability, permission state, the device locale and the package name are
  parameters, because they are platform queries.
- `AndroidSession.BeginListening`: an exception from `createSpeechRecognizer`
  (java:316) or `setRecognitionListener` (java:329) is not modelled. In the
  source it would leave the reference null or the old listener bound. The
  model rebuilds first, then applies `failure`.
- The popup transport is not modelled. Of `listeningResult`, only the reset
  of `listening` is kept; the reply to the popup's call is not. The catch
  branch in the popup launch is modelled only through `failure`.
- `AndroidSession.OnResults`: the catch branch (lines 446-449) is not
  modelled. The statements it guards only build JSON objects and send the
  reply. The empty catch of `onPartialResults` is not modelled either.
- `AndroidSession.Stop`: the catch branch around `stopListening()` (lines
  103-105) is not modelled. `stopListening()` only posts a block, and a
  failure of the platform's `post` is not part of this model.
- The empty callbacks `onReadyForSpeech`, `onRmsChanged`, `onBufferReceived`
  and `onEvent` are not modelled, because they change nothing.
- Out of scope, because they are not part of the session controller:
  - `available` and `getSupportedLanguages` (Android's language receiver,
    iOS's locale sort);
  - `requestPermissions`, `permissionsCallback` and `getPluginVersion`;
  - `handleOnDestroy`, which only calls `destroyRecognizer`;
  - the web and TypeScript layers.
- `IosSession.BeginRecognition`: the punctuation flag is always recorded on
  the request. The source sets it only on iOS 16 and later.
- Java `int` and Swift `Int` are unbounded integers here. The controller
  only compares them and prints them, so no wrap-around arises.
- Call status as "the first reply wins" comes from JavaScript promise
  semantics on the other side of the bridge. The native code itself sends
  every reply it makes.
- The Android `SpeechRecognizer.ERROR_*` integers (1 to 9, and 11) are
  the platform's values and are not defined in this repository. Code 10 and
  every other integer fall into the default message, as the source's switch
  has no case for them.
