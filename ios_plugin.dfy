/** The iOS plugin object. Its fields are the controller's state; each
    method updates them in place and is proved to leave the state the
    matching function of IosSession gives. */
module IosPlugin {
  import opened Bridge
  import opened IosHelpers
  import opened IosSession

  class SpeechRecognitionPlugin {
    /** audioEngine.isRunning */
    var engineRunning: bool
    var hasInstalledTap: bool
    var recognitionRequest: Option<Request>
    var recognitionTask: Option<Task>
    /** The locale of speechRecognizer, when there is one. */
    var speechRecognizer: Option<string>
    var activeCall: Option<CallId>
    var currentOptions: Option<RecognitionOptions>
    /** Replies and notifications sent to the web view, in order. */
    var sent: seq<Output>

    ghost function Snapshot(): IosState
      reads this
    {
      IosState(engineRunning, hasInstalledTap, recognitionRequest, recognitionTask,
               speechRecognizer, activeCall, currentOptions, sent)
    }

    /** Holds after every method, in every order of the method calls. */
    ghost predicate Valid()
      reads this
    {
      Consistent(Snapshot())
    }

    constructor ()
      ensures Valid() && Snapshot() == Initial()
    {
      engineRunning, hasInstalledTap := false, false;
      recognitionRequest, recognitionTask, speechRecognizer := None, None, None;
      activeCall, currentOptions := None, None;
      sent := [];
    }

    /** isListening resolves the call with whether the audio engine runs
        (see ListeningMeansSession for what that says about the session). */
    method IsListening(call: CallId)
      modifies this
      ensures Snapshot() == old(Snapshot()).(sent := old(sent) + [Respond(call, Resolved(ListeningFlag(engineRunning)))])
    {
      sent := sent + [Respond(call, Resolved(ListeningFlag(engineRunning)))];
    }

    method CheckPermissions(call: CallId, speech: SpeechAuthorization, mic: RecordPermission)
      modifies this
      ensures Snapshot() == old(Snapshot()).(sent := old(sent) + [Respond(call, Resolved(PermissionStatus(RawValue(PermissionStateOf(speech, mic)))))])
    {
      var state := PermissionStateOf(speech, mic);
      sent := sent + [Respond(call, Resolved(PermissionStatus(RawValue(state))))];
    }

    /** start, up to the microphone request. `asked` holds the options the
        answer's handler captured when the microphone was asked for; the
        answer arrives later as OnMicrophoneAnswer, possibly after other
        calls. */
    method Start(call: CallId, o: StartOptions, currentLocale: string, speech: SpeechAuthorization)
      returns (asked: Option<RecognitionOptions>)
      requires Valid()
      modifies this
      ensures Valid()
      ensures Snapshot() == RequestStart(old(Snapshot()), call, o, currentLocale, speech)
      ensures asked.Some? <==> !AlreadyRunning(old(Snapshot())) && IsSpeechPermissionGranted(speech)
      ensures asked.Some? ==> asked.value == ReadOptions(o, currentLocale) && Awaiting(Snapshot())
    {
      asked := None;
      if engineRunning || recognitionTask.Some? {
        sent := sent + [Respond(call, Rejected(ALREADY_RUNNING))];
        return;
      }
      if !IsSpeechPermissionGranted(speech) {
        sent := sent + [Respond(call, Rejected(MISSING_SPEECH_PERMISSION))];
        return;
      }
      var options := ReadOptions(o, currentLocale);
      activeCall := Some(call);
      currentOptions := Some(options);
      asked := Some(options);
    }

    /** The block the microphone answer posts, with start's call and options. */
    method OnMicrophoneAnswer(call: CallId, options: RecognitionOptions, granted: bool, p: Platform)
      requires Valid()
      modifies this
      ensures Valid()
      ensures Snapshot() == MicrophoneAnswer(old(Snapshot()), call, options, granted, p)
    {
      if !granted {
        sent := sent + [Respond(call, Rejected(MICROPHONE_DENIED))];
        CleanupRecognition(false);
        return;
      }
      BeginRecognition(call, options, p);
    }

    method BeginRecognition(call: CallId, options: RecognitionOptions, p: Platform)
      requires Valid()
      modifies this
      ensures Valid()
      ensures Snapshot() == IosSession.BeginRecognition(old(Snapshot()), call, options, p)
    {
      if !p.localeSupported {
        sent := sent + [Respond(call, Rejected(UNSUPPORTED_LOCALE + options.language))];
        CleanupRecognition(false);
        return;
      }
      if !p.recognizerAvailable {
        sent := sent + [Respond(call, Rejected(RECOGNIZER_UNAVAILABLE))];
        CleanupRecognition(false);
        return;
      }
      speechRecognizer := Some(options.language);
      if p.audioSessionError.Some? {
        sent := sent + [Respond(call, Rejected(AUDIO_SESSION_FAILED + p.audioSessionError.value))];
        CleanupRecognition(false);
        return;
      }
      recognitionRequest := Some(Request(options.partialResults, options.addPunctuation));
      hasInstalledTap := true;
      if p.engineStartError.Some? {
        sent := sent + [Respond(call, Rejected(ENGINE_START_FAILED + p.engineStartError.value))];
        CleanupRecognition(false);
        return;
      }
      engineRunning := true;
      sent := sent + [Notify(ListeningState(Started))];
      if options.partialResults {
        sent := sent + [Respond(call, Resolved(Ack))];
      }
      recognitionTask := Some(Task(options));
    }

    method Stop(call: CallId)
      modifies this
      ensures Valid()
      ensures Snapshot() == IosSession.Stop(old(Snapshot()), call)
    {
      sent := sent + [Respond(call, Resolved(Ack))];
      CleanupRecognition(true);
    }

    method CleanupRecognition(notifyStop: bool)
      modifies this
      ensures Valid()
      ensures Snapshot() == Cleanup(old(Snapshot()), notifyStop)
    {
      if engineRunning {
        engineRunning := false;
      }
      if hasInstalledTap {
        hasInstalledTap := false;
      }
      recognitionRequest := None;
      recognitionTask := None;
      speechRecognizer := None;
      currentOptions := None;
      activeCall := None;
      if notifyStop {
        sent := sent + [Notify(ListeningState(Stopped))];
      }
    }

    /** The recognition task's result handler, for the task `t` created by
        beginRecognition. */
    method OnTaskCallback(t: Task, result: Option<TaskResult>, error: Option<string>)
      requires Valid()
      modifies this
      ensures Valid()
      ensures Snapshot() == IosSession.OnTaskCallback(old(Snapshot()), t, result, error)
    {
      if result.Some? {
        var res := result.value;
        var matches := BuildMatches(res.transcriptions, t.options.maxResults);
        if t.options.partialResults {
          sent := sent + [Notify(PartialResults(matches))];
        } else if res.isFinal {
          if activeCall.Some? {
            sent := sent + [Respond(activeCall.value, Resolved(Matches(matches)))];
          }
        }
        if res.isFinal {
          CleanupRecognition(true);
        }
      }
      if error.Some? {
        HandleRecognitionError(error.value);
      }
    }

    method HandleRecognitionError(message: string)
      modifies this
      ensures Valid()
      ensures Snapshot() == Cleanup(RejectActive(old(Snapshot()), message), true)
    {
      // the cleanup is posted again, so the rejection runs first
      if activeCall.Some? {
        sent := sent + [Respond(activeCall.value, Rejected(message))];
      }
      CleanupRecognition(true);
    }
  }
}
