/** The Android plugin object. Its fields are the controller's state and
    every method updates them in place; each method is proved to leave the
    state the matching function of AndroidSession gives. */
module AndroidPlugin {
  import opened Bridge
  import opened AndroidErrors
  import opened AndroidOptions
  import opened AndroidSession

  class SpeechRecognitionPlugin {
    /** speechRecognizer != null */
    var hasRecognizer: bool
    /** The platform recognizer, seen from outside: instances created and
        destroyed so far, and the intent of the last startListening. */
    ghost var created: nat
    ghost var destroyed: nat
    ghost var startedWith: Option<Intent>
    var listening: bool
    var previousPartialResults: seq<string>
    /** The listener set on the recognizer. */
    var listener: Listener
    /** Replies and notifications sent to the web view, in order. */
    var sent: seq<Output>

    ghost function Snapshot(): AndroidState
      reads this
    {
      AndroidState(hasRecognizer, created, destroyed, startedWith, listening,
                   previousPartialResults, listener, sent)
    }

    ghost predicate Valid()
      reads this
    {
      Wf(Snapshot())
    }

    /** The plugin after load(): one recognizer with a listener and no call. */
    constructor ()
      ensures Valid() && Snapshot() == Loaded()
    {
      hasRecognizer := true;
      created, destroyed, startedWith := 1, 0, None;
      listening := false;
      previousPartialResults := [];
      listener := Listener(None, false);
      sent := [];
    }

    /** isListening resolves the call with the listening flag. */
    method IsListening(call: CallId)
      modifies this
      ensures Snapshot() == old(Snapshot()).(sent := old(sent) + [Respond(call, Resolved(ListeningFlag(listening)))])
    {
      sent := sent + [Respond(call, Resolved(ListeningFlag(listening)))];
    }

    method CheckPermissions(call: CallId, permission: PermissionState)
      modifies this
      ensures Snapshot() == old(Snapshot()).(sent := old(sent) + [Respond(call, Resolved(PermissionStatus(PermissionStateValue(permission))))])
    {
      sent := sent + [Respond(call, Resolved(PermissionStatus(PermissionStateValue(permission))))];
    }

    method Start(call: CallId, available: bool, permission: PermissionState, o: StartOptions,
                 host: Host, failure: Option<string>)
      requires Valid()
      modifies this
      ensures Valid()
      ensures Snapshot() == AndroidSession.Start(old(Snapshot()), call, available, permission, o, host, failure)
      ensures !available || permission != Granted ==>
                hasRecognizer == old(hasRecognizer) && listening == old(listening)
                && previousPartialResults == old(previousPartialResults)
    {
      if !available {
        sent := sent + [Respond(call, Unavailable(NOT_AVAILABLE))];
        return;
      }
      if permission != Granted {
        sent := sent + [Respond(call, Rejected(MISSING_PERMISSION))];
        return;
      }
      var c := ReadOptions(o, host.defaultLocale);
      BeginListening(call, c, host, failure);
    }

    method BeginListening(call: CallId, c: RecognitionConfig, host: Host, failure: Option<string>)
      requires Valid()
      modifies this
      ensures Valid()
      ensures Snapshot() == AndroidSession.BeginListening(old(Snapshot()), call, c, host, failure)
    {
      var intent := BuildIntent(c, host.packageName);
      previousPartialResults := [];
      if c.popup {
        listening := true;
        if failure.Some? {
          listening := false;
          sent := sent + [Respond(call, Rejected(failure.value))];
        }
        return;
      }
      RebuildRecognizerLocked(call, c.partialResults);
      if failure.Some? {
        sent := sent + [Respond(call, Rejected(failure.value))];
        return;
      }
      startedWith := Some(intent);
      listening := true;
      if c.partialResults {
        sent := sent + [Respond(call, Resolved(Ack))];
      }
    }

    method RebuildRecognizerLocked(call: CallId, partialResults: bool)
      requires Valid()
      modifies this
      ensures Valid()
      ensures Snapshot() == AndroidSession.RebuildRecognizer(old(Snapshot()), call, partialResults)
    {
      if !hasRecognizer {
        hasRecognizer := true;
        created := created + 1;
      }
      listener := Listener(Some(call), partialResults);
    }

    method Stop(call: CallId)
      requires Valid()
      modifies this
      ensures Valid()
      ensures Snapshot() == AndroidSession.Stop(old(Snapshot()), call)
    {
      sent := sent + [Respond(call, Resolved(Ack))];
      StopListening();
    }

    method StopListening()
      requires Valid()
      modifies this
      ensures Valid()
      ensures Snapshot() == AndroidSession.StopListening(old(Snapshot()))
      ensures hasRecognizer == old(hasRecognizer) && destroyed == old(destroyed)
    {
      previousPartialResults := [];
      listening := false;
    }

    method DestroyRecognizer()
      requires Valid()
      modifies this
      ensures Valid()
      ensures Snapshot() == AndroidSession.DestroyRecognizer(old(Snapshot()))
    {
      if hasRecognizer {
        destroyed := destroyed + 1;
        hasRecognizer := false;
      }
    }

    method ListeningResult(call: Option<CallId>)
      requires Valid()
      modifies this
      ensures Valid()
      ensures Snapshot() == AndroidSession.ListeningResult(old(Snapshot()), call)
    {
      if call.None? {
        return;
      }
      listening := false;
    }

    method OnBeginningOfSpeech()
      requires Valid()
      modifies this
      ensures Valid()
      ensures Snapshot() == AndroidSession.OnBeginningOfSpeech(old(Snapshot()))
    {
      sent := sent + [Notify(ListeningState(Started))];
    }

    method OnEndOfSpeech()
      requires Valid()
      modifies this
      ensures Valid()
      ensures Snapshot() == AndroidSession.OnEndOfSpeech(old(Snapshot()))
    {
      listening := false;
      sent := sent + [Notify(ListeningState(Stopped))];
    }

    method OnError(code: int)
      requires Valid()
      modifies this
      ensures Valid()
      ensures Snapshot() == AndroidSession.OnError(old(Snapshot()), code)
      ensures !hasRecognizer && !listening && previousPartialResults == []
    {
      var message := GetErrorText(code);
      previousPartialResults := [];
      listening := false;
      if hasRecognizer {
        destroyed := destroyed + 1;
        hasRecognizer := false;
      }
      if listener.call.Some? {
        sent := sent + [Respond(listener.call.value, Rejected(message))];
      }
    }

    method OnResults(matches: Option<seq<string>>)
      requires Valid()
      modifies this
      ensures Valid()
      ensures Snapshot() == AndroidSession.OnResults(old(Snapshot()), matches)
      ensures previousPartialResults == []
    {
      var m := MatchArray(matches);
      if listener.call.Some? {
        if !listener.partialResults {
          sent := sent + [Respond(listener.call.value, Resolved(SuccessMatches(m)))];
        } else {
          sent := sent + [Notify(PartialResults(m))];
        }
      }
      previousPartialResults := [];
    }

    method OnPartialResults(matches: Option<seq<string>>)
      requires Valid()
      modifies this
      ensures Valid()
      ensures Snapshot() == AndroidSession.OnPartialResults(old(Snapshot()), matches)
    {
      if matches.Some? && |matches.value| > 0 && previousPartialResults != matches.value {
        previousPartialResults := matches.value;
        sent := sent + [Notify(PartialResults(previousPartialResults))];
      }
    }

    method OnSegmentResults(matches: Option<seq<string>>)
      requires Valid()
      modifies this
      ensures Valid()
      ensures Snapshot() == AndroidSession.OnSegmentResults(old(Snapshot()), matches)
    {
      if matches.None? {
        return;
      }
      sent := sent + [Notify(SegmentResults(matches.value))];
    }

    method OnEndOfSegmentedSession()
      requires Valid()
      modifies this
      ensures Valid()
      ensures Snapshot() == AndroidSession.OnEndOfSegmentedSession(old(Snapshot()))
    {
      sent := sent + [Notify(EndOfSegmentedSession)];
    }
  }
}
