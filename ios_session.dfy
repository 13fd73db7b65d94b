/** The iOS session controller as a state machine on values. Each block
    the plugin posts to the main queue runs whole and in the order posted.
    start is two steps (the request and the microphone answer); every other
    function also runs the cleanup that its block posts, in the same step.
    StartBeforePostedCleanup composes such a split by hand. */
module IosSession {
  import opened Bridge
  import opened IosHelpers

  const ALREADY_RUNNING := "Speech recognition is already running."
  const MISSING_SPEECH_PERMISSION := "Missing speech recognition permission."
  const MICROPHONE_DENIED := "User denied microphone access."
  const RECOGNIZER_UNAVAILABLE := "Speech recognizer is currently unavailable."
  const UNSUPPORTED_LOCALE := "Unsupported locale: "
  const AUDIO_SESSION_FAILED := "Failed to configure audio session: "
  const ENGINE_START_FAILED := "Unable to start audio engine: "
  const DEFAULT_MAX_RESULTS := 5

  /** The arguments of a `start` call; an absent key is `None`. */
  datatype StartOptions = StartOptions(
    language: Option<string>,
    maxResults: Option<int>,
    partialResults: Option<bool>,
    addPunctuation: Option<bool>)

  datatype RecognitionOptions = RecognitionOptions(
    language: string,
    maxResults: int,
    partialResults: bool,
    addPunctuation: bool)

  function ReadOptions(o: StartOptions, currentLocale: string): (r: RecognitionOptions)
    ensures r.language == o.language.GetOr(currentLocale)
    ensures o.maxResults.None? ==> r.maxResults == DEFAULT_MAX_RESULTS
    ensures o.maxResults.Some? ==> r.maxResults == o.maxResults.value
    ensures r.partialResults <==> o.partialResults == Some(true)
    ensures r.addPunctuation <==> o.addPunctuation == Some(true)
  {
    RecognitionOptions(
      o.language.GetOr(currentLocale),
      o.maxResults.GetOr(DEFAULT_MAX_RESULTS),
      o.partialResults.GetOr(false),
      o.addPunctuation.GetOr(false))
  }

  /** The audio-buffer recognition request. */
  datatype Request = Request(reportsPartialResults: bool, addsPunctuation: bool)

  /** A recognition task; its result handler captured the session's options. */
  datatype Task = Task(options: RecognitionOptions)

  /** What the platform answers while beginRecognition sets up a session:
      whether a recognizer exists for the locale and is available, and the
      error text of a failing audio-session setup or engine start. */
  datatype Platform = Platform(
    localeSupported: bool,
    recognizerAvailable: bool,
    audioSessionError: Option<string>,
    engineStartError: Option<string>)

  /** One result the recognition task reports. */
  datatype TaskResult = TaskResult(transcriptions: seq<string>, isFinal: bool)

  /** Everything the plugin holds. `engineRunning` is the audio engine's
      isRunning; `recognizer` is the locale of the recognizer in use. */
  datatype IosState = IosState(
    engineRunning: bool,
    hasInstalledTap: bool,
    request: Option<Request>,
    task: Option<Task>,
    recognizer: Option<string>,
    activeCall: Option<CallId>,
    currentOptions: Option<RecognitionOptions>,
    sent: seq<Output>)

  /** No session: every session field is cleared and the engine is stopped. */
  predicate Idle(s: IosState)
  {
    !s.engineRunning && !s.hasInstalledTap && s.request.None? && s.task.None?
    && s.recognizer.None? && s.activeCall.None? && s.currentOptions.None?
  }

  /** A running session: every field is set and agrees with the options. */
  predicate Active(s: IosState)
  {
    s.engineRunning && s.hasInstalledTap && s.task.Some? && s.activeCall.Some?
    && s.currentOptions == Some(s.task.value.options)
    && s.recognizer == Some(s.task.value.options.language)
    && s.request == Some(Request(s.task.value.options.partialResults, s.task.value.options.addPunctuation))
  }

  /** start has recorded its call and options and waits for the microphone
      answer; nothing of a session is set up yet. */
  predicate Awaiting(s: IosState)
  {
    !s.engineRunning && !s.hasInstalledTap && s.request.None? && s.task.None?
    && s.recognizer.None? && s.activeCall.Some? && s.currentOptions.Some?
  }

  /** What every modelled step keeps, in every interleaving of those steps
      (a posted cleanup runs in the step that posts it): the engine, tap, request, recognizer and task are present
      together and agree with the task's options, and the call and the
      options are recorded together. */
  predicate Consistent(s: IosState)
  {
    (s.engineRunning <==> s.task.Some?)
    && (s.hasInstalledTap <==> s.task.Some?)
    && (s.request.Some? <==> s.task.Some?)
    && (s.recognizer.Some? <==> s.task.Some?)
    && (s.activeCall.Some? <==> s.currentOptions.Some?)
    && (s.task.Some? ==>
          s.recognizer == Some(s.task.value.options.language)
          && s.request == Some(Request(s.task.value.options.partialResults, s.task.value.options.addPunctuation)))
  }

  /** Idle, or running a session whose call and options are the ones its
      task was started with. Operations keep this when every microphone
      answer arrives before any other call and nothing runs between a block
      and the cleanup it posts; StopDuringPromptIsUndone,
      SecondStartDuringPrompt and StartBeforePostedCleanup show interleavings
      that leave it. */
  predicate Steady(s: IosState)
  {
    Idle(s) || Active(s)
  }

  function Initial(): (s: IosState)
    ensures Idle(s) && s.sent == []
  {
    IosState(false, false, None, None, None, None, None, [])
  }

  function Emit(s: IosState, e: Event): IosState
  {
    s.(sent := s.sent + [Notify(e)])
  }

  function Reply(s: IosState, c: CallId, r: Reply): IosState
  {
    s.(sent := s.sent + [Respond(c, r)])
  }

  // ---------------------------------------------------------------------
  // Operations

  /** cleanupRecognition: stops the engine, removes the tap, drops the
      request, task, recognizer, options and call, and reports the stop when
      asked to. */
  function Cleanup(s: IosState, notifyStop: bool): (r: IosState)
    ensures Idle(r)
    ensures r.sent == s.sent + if notifyStop then [Notify(ListeningState(Stopped))] else []
  {
    var s1 := IosState(false, false, None, None, None, None, None, s.sent);
    if notifyStop then Emit(s1, ListeningState(Stopped)) else s1
  }

  /** Rejects the call and then cleans up without a stop event. */
  function Abort(s: IosState, call: CallId, message: string): (r: IosState)
    ensures Idle(r) && r.sent == s.sent + [Respond(call, Rejected(message))]
  {
    Cleanup(Reply(s, call, Rejected(message)), false)
  }

  /** beginRecognition: every failure rejects the call and cleans up; on
      success the engine runs, a started event goes out, and the call is
      resolved at once exactly when partial results were asked for. It
      neither reads nor sets the recorded call and options. */
  function BeginRecognition(s: IosState, call: CallId, o: RecognitionOptions, p: Platform): (r: IosState)
    ensures Consistent(s) ==> Consistent(r)
    ensures Succeeds(p) ==>
              r.engineRunning && r.task == Some(Task(o))
              && r.activeCall == s.activeCall && r.currentOptions == s.currentOptions
              && r.sent == s.sent + [Notify(ListeningState(Started))]
                                  + if o.partialResults then [Respond(call, Resolved(Ack))] else []
    ensures Succeeds(p) && s.activeCall.Some? && s.currentOptions == Some(o) ==> Active(r)
    ensures !Succeeds(p) ==> r == Abort(s, call, FailureMessage(o, p))
  {
    if !p.localeSupported then Abort(s, call, UNSUPPORTED_LOCALE + o.language)
    else if !p.recognizerAvailable then Abort(s, call, RECOGNIZER_UNAVAILABLE)
    else
      var s1 := s.(recognizer := Some(o.language));
      if p.audioSessionError.Some? then Abort(s1, call, AUDIO_SESSION_FAILED + p.audioSessionError.value)
      else
        var s2 := s1.(request := Some(Request(o.partialResults, o.addPunctuation)), hasInstalledTap := true);
        if p.engineStartError.Some? then Abort(s2, call, ENGINE_START_FAILED + p.engineStartError.value)
        else
          var s3 := Emit(s2.(engineRunning := true), ListeningState(Started));
          var s4 := if o.partialResults then Reply(s3, call, Resolved(Ack)) else s3;
          s4.(task := Some(Task(o)))
  }

  predicate Succeeds(p: Platform)
  {
    p.localeSupported && p.recognizerAvailable && p.audioSessionError.None? && p.engineStartError.None?
  }

  /** The rejection message of a failed beginRecognition. */
  function FailureMessage(o: RecognitionOptions, p: Platform): string
  {
    if !p.localeSupported then UNSUPPORTED_LOCALE + o.language
    else if !p.recognizerAvailable then RECOGNIZER_UNAVAILABLE
    else if p.audioSessionError.Some? then AUDIO_SESSION_FAILED + p.audioSessionError.value
    else if p.engineStartError.Some? then ENGINE_START_FAILED + p.engineStartError.value
    else ""
  }

  /** start's first guard: an engine runs or a task exists. */
  predicate AlreadyRunning(s: IosState)
  {
    s.engineRunning || s.task.Some?
  }

  /** The synchronous part of start: refuses while a session runs, then
      without speech authorization (neither touches the state); otherwise
      records the call and options and asks for the microphone, whose answer
      arrives later (MicrophoneAnswer). */
  function RequestStart(s: IosState, call: CallId, o: StartOptions, currentLocale: string,
                        speech: SpeechAuthorization): (r: IosState)
    ensures AlreadyRunning(s) ==> r == Reply(s, call, Rejected(ALREADY_RUNNING))
    ensures !AlreadyRunning(s) && !IsSpeechPermissionGranted(speech) ==>
              r == Reply(s, call, Rejected(MISSING_SPEECH_PERMISSION))
    ensures !AlreadyRunning(s) && IsSpeechPermissionGranted(speech) ==>
              r.sent == s.sent && r.activeCall == Some(call)
              && r.currentOptions == Some(ReadOptions(o, currentLocale))
              && r.(activeCall := s.activeCall, currentOptions := s.currentOptions) == s
    ensures Consistent(s) ==> Consistent(r)
    ensures Consistent(s) && !AlreadyRunning(s) && IsSpeechPermissionGranted(speech) ==> Awaiting(r)
  {
    if AlreadyRunning(s) then Reply(s, call, Rejected(ALREADY_RUNNING))
    else if !IsSpeechPermissionGranted(speech) then Reply(s, call, Rejected(MISSING_SPEECH_PERMISSION))
    else s.(activeCall := Some(call), currentOptions := Some(ReadOptions(o, currentLocale)))
  }

  /** The block posted when the microphone answer arrives, with the call and
      options start captured: a refusal rejects the call and cleans up
      without a stop event; a grant begins recognition. */
  function MicrophoneAnswer(s: IosState, call: CallId, o: RecognitionOptions, granted: bool,
                            p: Platform): (r: IosState)
    ensures !granted ==> Idle(r) && r.sent == s.sent + [Respond(call, Rejected(MICROPHONE_DENIED))]
    ensures granted && !Succeeds(p) ==> Idle(r) && r.sent == s.sent + [Respond(call, Rejected(FailureMessage(o, p)))]
    ensures granted && Succeeds(p) ==> r.engineRunning && r.task == Some(Task(o))
    ensures Consistent(s) ==> Consistent(r)
    ensures Awaiting(s) && s.activeCall == Some(call) && s.currentOptions == Some(o) ==> Steady(r)
  {
    if !granted then Abort(s, call, MICROPHONE_DENIED)
    else BeginRecognition(s, call, o, p)
  }

  /** start when its microphone answer arrives before any other call: the
      request step followed at once by the answer. */
  function Start(s: IosState, call: CallId, o: StartOptions, currentLocale: string,
                 speech: SpeechAuthorization, micGranted: bool, p: Platform): (r: IosState)
    ensures Steady(s) ==> Steady(r)
    ensures Consistent(s) ==> Consistent(r)
    ensures AlreadyRunning(s) ==> r == Reply(s, call, Rejected(ALREADY_RUNNING))
    ensures !AlreadyRunning(s) && !IsSpeechPermissionGranted(speech) ==>
              r == Reply(s, call, Rejected(MISSING_SPEECH_PERMISSION))
    ensures !AlreadyRunning(s) && IsSpeechPermissionGranted(speech) && !micGranted ==>
              r == Abort(s, call, MICROPHONE_DENIED)
  {
    var requested := RequestStart(s, call, o, currentLocale, speech);
    if AlreadyRunning(s) || !IsSpeechPermissionGranted(speech) then requested
    else MicrophoneAnswer(requested, call, ReadOptions(o, currentLocale), micGranted, p)
  }

  /** stop: the call is resolved before the posted cleanup runs. */
  function Stop(s: IosState, call: CallId): (r: IosState)
    ensures Idle(r)
    ensures r.sent == s.sent + [Respond(call, Resolved(Ack)), Notify(ListeningState(Stopped))]
  {
    Cleanup(Reply(s, call, Resolved(Ack)), true)
  }

  /** Resolves the active call, if there is one. */
  function ResolveActive(s: IosState, payload: Payload): IosState
  {
    match s.activeCall
    case None => s
    case Some(c) => Reply(s, c, Resolved(payload))
  }

  function RejectActive(s: IosState, message: string): IosState
  {
    match s.activeCall
    case None => s
    case Some(c) => Reply(s, c, Rejected(message))
  }

  /** The handling of one result: in partial mode every result is emitted;
      otherwise only a final result resolves the call; a final result ends
      the session with a stop event. */
  function OnResult(s: IosState, o: RecognitionOptions, res: TaskResult): (r: IosState)
    ensures res.isFinal ==> Idle(r) && |r.sent| > |s.sent| && r.sent[|r.sent| - 1] == Notify(ListeningState(Stopped))
    ensures !res.isFinal ==> r.(sent := s.sent) == s
    ensures o.partialResults ==>
              |r.sent| == |s.sent| + (if res.isFinal then 2 else 1)
              && r.sent[..|s.sent| + 1] == s.sent + [Notify(PartialResults(Truncated(res.transcriptions, o.maxResults)))]
    ensures !o.partialResults && !res.isFinal ==> r == s
    ensures !o.partialResults && res.isFinal && s.activeCall.Some? ==>
              r.sent == s.sent + [Respond(s.activeCall.value, Resolved(Matches(Truncated(res.transcriptions, o.maxResults)))),
                                  Notify(ListeningState(Stopped))]
    ensures !o.partialResults && res.isFinal && s.activeCall.None? ==>
              r.sent == s.sent + [Notify(ListeningState(Stopped))]
  {
    var m := Truncated(res.transcriptions, o.maxResults);
    var s1 :=
      if o.partialResults then Emit(s, PartialResults(m))
      else if res.isFinal then ResolveActive(s, Matches(m))
      else s;
    if res.isFinal then Cleanup(s1, true) else s1
  }

  /** The recognition task's handler: first the result, then an error,
      which rejects the active call and then cleans up with a stop event. */
  function OnTaskCallback(s: IosState, t: Task, result: Option<TaskResult>, error: Option<string>): (r: IosState)
    ensures Steady(s) ==> Steady(r)
    ensures Consistent(s) ==> Consistent(r)
    ensures error.Some? ==> Idle(r)
  {
    var s1 := if result.Some? then OnResult(s, t.options, result.value) else s;
    if error.Some? then Cleanup(RejectActive(s1, error.value), true) else s1
  }

  /** isListening reports the engine's state. It runs exactly while a task
      exists, and in a steady state exactly while a session is active. */
  lemma ListeningMeansSession(s: IosState)
    ensures Consistent(s) ==> (s.engineRunning <==> s.task.Some?)
    ensures Steady(s) ==> (s.engineRunning <==> Active(s))
    ensures Steady(s) ==> Consistent(s)
  {
  }

  // ---------------------------------------------------------------------
  // Lemmas

  /** Cleaning up twice leaves the state of cleaning up once, apart from a
      second stop event. */
  lemma CleanupTwice(s: IosState, first: bool, second: bool)
    ensures var once := Cleanup(s, first);
            Cleanup(once, second) == once.(sent := once.sent + if second then [Notify(ListeningState(Stopped))] else [])
  {
  }

  /** Both start refusals leave the active call and the options as they were. */
  lemma StartRefusalKeepsSession(s: IosState, call: CallId, o: StartOptions, currentLocale: string,
                                 speech: SpeechAuthorization, micGranted: bool, p: Platform)
    requires Steady(s)
    requires Active(s) || !IsSpeechPermissionGranted(speech)
    ensures var r := Start(s, call, o, currentLocale, speech, micGranted, p);
            r.activeCall == s.activeCall && r.currentOptions == s.currentOptions
            && r.(sent := s.sent) == s
  {
  }

  /** While a session runs, start is refused as already running, whatever
      the authorization: that check comes first. */
  lemma StartWhileActive(s: IosState, call: CallId, o: StartOptions, currentLocale: string,
                         speech: SpeechAuthorization, micGranted: bool, p: Platform)
    requires Active(s)
    requires StatusOf(s.sent, call) == Pending
    ensures StatusOf(Start(s, call, o, currentLocale, speech, micGranted, p).sent, call)
              == Settled(Rejected(ALREADY_RUNNING))
  {
    SettleByReply(s.sent, call, Rejected(ALREADY_RUNNING));
  }

  /** A successful start from idle: the started event goes out, then the
      call is resolved at once exactly when partial results were asked for;
      otherwise it stays pending. */
  lemma StartResolvesIffPartial(s: IosState, call: CallId, o: StartOptions, currentLocale: string,
                                p: Platform)
    requires Idle(s) && Succeeds(p)
    requires StatusOf(s.sent, call) == Pending
    ensures var r := Start(s, call, o, currentLocale, Authorized, true, p);
            var partial := o.partialResults == Some(true);
            Active(r)
            && r.sent[..|s.sent| + 1] == s.sent + [Notify(ListeningState(Started))]
            && StatusOf(r.sent, call) == if partial then Settled(Resolved(Ack)) else Pending
  {
    var r := Start(s, call, o, currentLocale, Authorized, true, p);
    var ro := ReadOptions(o, currentLocale);
    if ro.partialResults {
      assert r.sent == (s.sent + [Notify(ListeningState(Started))]) + [Respond(call, Resolved(Ack))];
      PendingThenAppend(s.sent, [Notify(ListeningState(Started))], call);
      SettleByReply(s.sent + [Notify(ListeningState(Started))], call, Resolved(Ack));
    } else {
      PendingThenAppend(s.sent, [Notify(ListeningState(Started))], call);
    }
  }

  /** In partial mode nothing is deduplicated: the same result twice emits
      two events. */
  lemma PartialModeEmitsEveryResult(s: IosState, o: RecognitionOptions, res: TaskResult)
    requires o.partialResults && !res.isFinal
    ensures var m := Truncated(res.transcriptions, o.maxResults);
            OnResult(OnResult(s, o, res), o, res).sent
              == s.sent + [Notify(PartialResults(m)), Notify(PartialResults(m))]
  {
  }

  /** Without partial mode, a result that is not final changes nothing. */
  lemma NonFinalResultIsSilent(s: IosState, o: RecognitionOptions, res: TaskResult)
    requires !o.partialResults && !res.isFinal
    ensures OnResult(s, o, res) == s
  {
  }

  /** Scenario: a session started without partial results ends with its
      final result: the call is resolved with the kept transcriptions, a stop
      event follows, and the plugin is idle again. */
  lemma ScenarioFinalResult(s: IosState, call: CallId, o: StartOptions, currentLocale: string,
                            p: Platform, res: TaskResult)
    requires Idle(s) && Succeeds(p) && StatusOf(s.sent, call) == Pending
    requires o.partialResults != Some(true) && res.isFinal
    ensures var st := Start(s, call, o, currentLocale, Authorized, true, p);
            var r := OnTaskCallback(st, st.task.value, Some(res), None);
            var m := Truncated(res.transcriptions, ReadOptions(o, currentLocale).maxResults);
            Idle(r)
            && StatusOf(r.sent, call) == Settled(Resolved(Matches(m)))
            && r.sent[|r.sent| - 1] == Notify(ListeningState(Stopped))
  {
    var st := Start(s, call, o, currentLocale, Authorized, true, p);
    var m := Truncated(res.transcriptions, ReadOptions(o, currentLocale).maxResults);
    StartResolvesIffPartial(s, call, o, currentLocale, p);
    var r := OnTaskCallback(st, st.task.value, Some(res), None);
    SettleByReply(st.sent, call, Resolved(Matches(m)));
    assert r.sent == (st.sent + [Respond(call, Resolved(Matches(m)))]) + [Notify(ListeningState(Stopped))];
    SettledStaysSettled(st.sent + [Respond(call, Resolved(Matches(m)))], [Notify(ListeningState(Stopped))], call);
  }

  /** A task error rejects the active call before the cleanup drops it. */
  lemma ErrorRejectsActiveCall(s: IosState, t: Task, message: string)
    requires Active(s) && StatusOf(s.sent, s.activeCall.value) == Pending
    ensures var r := OnTaskCallback(s, t, None, Some(message));
            Idle(r) && StatusOf(r.sent, s.activeCall.value) == Settled(Rejected(message))
  {
    var c := s.activeCall.value;
    SettleByReply(s.sent, c, Rejected(message));
    SettledStaysSettled(s.sent + [Respond(c, Rejected(message))], [Notify(ListeningState(Stopped))], c);
    assert OnTaskCallback(s, t, None, Some(message)).sent
        == (s.sent + [Respond(c, Rejected(message))]) + [Notify(ListeningState(Stopped))];
  }

  /** A task callback that arrives after cleanup replies to no call: with no
      active call it only sends notifications. */
  lemma IdleCallbackRepliesToNoCall(s: IosState, t: Task, result: Option<TaskResult>, error: Option<string>)
    requires Idle(s)
    ensures var r := OnTaskCallback(s, t, result, error);
            |r.sent| >= |s.sent| && r.sent[..|s.sent|] == s.sent
            && forall k :: |s.sent| <= k < |r.sent| ==> r.sent[k].Notify?
  {
  }

  /** stop during a session without partial results resolves the stop call
      and drops the start call while it is still pending: after it no
      callback can settle the start call. */
  lemma StopOrphansPendingStart(s: IosState, call: CallId, stopCall: CallId, o: StartOptions,
                                currentLocale: string, p: Platform)
    requires Idle(s) && Succeeds(p) && StatusOf(s.sent, call) == Pending
    requires o.partialResults != Some(true) && stopCall != call
    ensures var r := Stop(Start(s, call, o, currentLocale, Authorized, true, p), stopCall);
            Idle(r) && StatusOf(r.sent, call) == Pending
  {
    var st := Start(s, call, o, currentLocale, Authorized, true, p);
    StartResolvesIffPartial(s, call, o, currentLocale, p);
    NoReplyKeepsStatus(st.sent, [Respond(stopCall, Resolved(Ack)), Notify(ListeningState(Stopped))], call);
  }

  /** Scenario: stop while the microphone prompt is open. stop resolves its
      call and cleans up, but the granted answer then starts the engine
      anyway, after the stop event: a session runs with no active call, so
      a start call without partial results is never settled, not even by
      the final result. */
  lemma StopDuringPromptIsUndone(s: IosState, call: CallId, stopCall: CallId, o: StartOptions,
                                 currentLocale: string, p: Platform, res: TaskResult)
    requires Idle(s) && Succeeds(p) && StatusOf(s.sent, call) == Pending
    requires o.partialResults != Some(true) && stopCall != call && res.isFinal
    ensures var st := Stop(RequestStart(s, call, o, currentLocale, Authorized), stopCall);
            var r := MicrophoneAnswer(st, call, ReadOptions(o, currentLocale), true, p);
            var f := OnTaskCallback(r, r.task.value, Some(res), None);
            r.engineRunning && r.activeCall.None? && !Steady(r)
            && r.sent[|r.sent| - 1] == Notify(ListeningState(Started))
            && StatusOf(r.sent, call) == Pending
            && Idle(f) && StatusOf(f.sent, call) == Pending
  {
    var ro := ReadOptions(o, currentLocale);
    var st := Stop(RequestStart(s, call, o, currentLocale, Authorized), stopCall);
    var r := MicrophoneAnswer(st, call, ro, true, p);
    var tail := [Respond(stopCall, Resolved(Ack)), Notify(ListeningState(Stopped)), Notify(ListeningState(Started))];
    assert r.sent == s.sent + tail;
    NoReplyKeepsStatus(s.sent, tail, call);
    var f := OnTaskCallback(r, r.task.value, Some(res), None);
    assert f.sent == r.sent + [Notify(ListeningState(Stopped))];
    NoReplyKeepsStatus(r.sent, [Notify(ListeningState(Stopped))], call);
  }

  /** Scenario: a second start while the first one's microphone prompt is
      open passes the guard, since no engine runs and no task exists yet,
      and replaces the recorded call and options without a reply to either
      call. When the first answer is granted, its session runs with the
      second call recorded. */
  lemma SecondStartDuringPrompt(s: IosState, first: CallId, second: CallId, o1: StartOptions,
                                o2: StartOptions, currentLocale: string, p: Platform)
    requires Idle(s) && Succeeds(p)
    requires ReadOptions(o1, currentLocale) != ReadOptions(o2, currentLocale)
    ensures var a := RequestStart(s, first, o1, currentLocale, Authorized);
            var b := RequestStart(a, second, o2, currentLocale, Authorized);
            var r := MicrophoneAnswer(b, first, ReadOptions(o1, currentLocale), true, p);
            Awaiting(a) && Awaiting(b) && b.sent == s.sent
            && b.activeCall == Some(second) && b.currentOptions == Some(ReadOptions(o2, currentLocale))
            && r.engineRunning && r.activeCall == Some(second) && !Steady(r)
  {
  }

  /** Scenario: a start handled after a microphone denial has replied but
      before the cleanup that block posts. The denial block rejects the first
      call; the second start passes the guard (no engine, no task) and
      records its call and options; the posted cleanup then erases them; the
      second grant starts a session with no active call, so a second call
      without partial results is never settled. */
  lemma StartBeforePostedCleanup(s: IosState, first: CallId, second: CallId, o1: StartOptions,
                                 o2: StartOptions, currentLocale: string, p: Platform)
    requires Idle(s) && Succeeds(p) && first != second && StatusOf(s.sent, second) == Pending
    requires o2.partialResults != Some(true)
    ensures var a := RequestStart(s, first, o1, currentLocale, Authorized);
            var denied := Reply(a, first, Rejected(MICROPHONE_DENIED));
            var b := RequestStart(denied, second, o2, currentLocale, Authorized);
            var cleaned := Cleanup(b, false);
            var e := MicrophoneAnswer(cleaned, second, ReadOptions(o2, currentLocale), true, p);
            b.activeCall == Some(second) && cleaned.activeCall.None?
            && e.engineRunning && e.activeCall.None? && !Steady(e)
            && StatusOf(e.sent, second) == Pending
  {
    var a := RequestStart(s, first, o1, currentLocale, Authorized);
    var denied := Reply(a, first, Rejected(MICROPHONE_DENIED));
    var b := RequestStart(denied, second, o2, currentLocale, Authorized);
    var e := MicrophoneAnswer(Cleanup(b, false), second, ReadOptions(o2, currentLocale), true, p);
    var tail := [Respond(first, Rejected(MICROPHONE_DENIED)), Notify(ListeningState(Started))];
    assert e.sent == s.sent + tail;
    NoReplyKeepsStatus(s.sent, tail, second);
  }
}
