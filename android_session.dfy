/** The Android session controller as a state machine on values: one
    function per operation or listener callback, each giving the state after
    it. The plugin class in AndroidPlugin is proved to follow these
    functions; the lemmas here state what a sequence of them does. */
module AndroidSession {
  import opened Bridge
  import opened AndroidErrors
  import opened AndroidOptions

  const NOT_AVAILABLE := "Speech recognition service is not available."
  const MISSING_PERMISSION := "Missing permission"

  /** The listener attached to the recognizer: the call of the session that
      attached it and whether that session asked for partial results. */
  datatype Listener = Listener(call: Option<CallId>, partialResults: bool)

  /** Everything the controller holds. `recognizer` says whether the
      recognizer reference is non-null; `created`, `destroyed` and
      `startedWith` record what was asked of the platform recognizer (how
      many instances were created and destroyed, the intent of the last
      startListening). */
  datatype AndroidState = AndroidState(
    recognizer: bool,
    created: nat,
    destroyed: nat,
    startedWith: Option<Intent>,
    listening: bool,
    cache: seq<string>,
    listener: Listener,
    sent: seq<Output>)

  /** At most one recognizer instance is alive, and it is the one referenced:
      every instance created but the current one has been destroyed. */
  predicate Wf(s: AndroidState)
  {
    s.created == s.destroyed + (if s.recognizer then 1 else 0)
  }

  /** The state after load(): a recognizer with a listener that has no call. */
  function Loaded(): (s: AndroidState)
    ensures Wf(s) && s.recognizer && !s.listening && s.cache == [] && s.sent == []
  {
    AndroidState(true, 1, 0, None, false, [], Listener(None, false), [])
  }

  function Emit(s: AndroidState, e: Event): AndroidState
  {
    s.(sent := s.sent + [Notify(e)])
  }

  function Reply(s: AndroidState, c: CallId, r: Reply): AndroidState
  {
    s.(sent := s.sent + [Respond(c, r)])
  }

  /** The array a possibly-null list of matches becomes: null is empty. */
  function MatchArray(matches: Option<seq<string>>): seq<string>
  {
    matches.GetOr([])
  }

  // ---------------------------------------------------------------------
  // Operations

  /** rebuildRecognizerLocked: reuse the recognizer if there is one, create
      one otherwise, and attach a fresh listener bound to the call. */
  function RebuildRecognizer(s: AndroidState, call: CallId, partialResults: bool): (r: AndroidState)
    ensures r.recognizer && r.listener == Listener(Some(call), partialResults)
    ensures r.destroyed == s.destroyed
    ensures r.created == if s.recognizer then s.created else s.created + 1
    ensures Wf(s) ==> Wf(r)
    ensures r.(listener := s.listener, created := s.created, recognizer := s.recognizer) == s
  {
    var s1 := if s.recognizer then s else s.(recognizer := true, created := s.created + 1);
    s1.(listener := Listener(Some(call), partialResults))
  }

  /** beginListening with options already read. The popup path only keeps
      the listening flag; the inline path rebuilds the recognizer, starts it
      and resolves the call at once when partial results were asked for.
      `failure` is an exception from launching the popup activity or from
      startListening; it is raised after the recognizer was rebuilt. */
  function BeginListening(s: AndroidState, call: CallId, c: RecognitionConfig, host: Host,
                          failure: Option<string>): (r: AndroidState)
    ensures r.cache == []
    ensures r.destroyed == s.destroyed
    ensures Wf(s) ==> Wf(r)
    ensures c.popup ==> r.recognizer == s.recognizer && r.created == s.created && r.listener == s.listener
    ensures !c.popup ==> r.recognizer && r.listener == Listener(Some(call), c.partialResults)
    ensures r.listening == (if failure.Some? then !c.popup && s.listening else true)
    ensures !c.popup && failure.None? ==> r.startedWith == Some(BuildIntent(c, host.packageName))
    ensures c.popup || failure.Some? ==> r.startedWith == s.startedWith
    ensures !c.popup ==> r.created == if s.recognizer then s.created else s.created + 1
    ensures r.sent == s.sent + if failure.Some? then [Respond(call, Rejected(failure.value))]
                              else if !c.popup && c.partialResults then [Respond(call, Resolved(Ack))]
                              else []
  {
    var intent := BuildIntent(c, host.packageName);
    var s1 := s.(cache := []);
    if c.popup then
      if failure.None? then s1.(listening := true)
      else Reply(s1.(listening := false), call, Rejected(failure.value))
    else
      var s2 := RebuildRecognizer(s1, call, c.partialResults);
      if failure.Some? then Reply(s2, call, Rejected(failure.value))
      else
        var s3 := s2.(startedWith := Some(intent), listening := true);
        if c.partialResults then Reply(s3, call, Resolved(Ack)) else s3
  }

  /** start: availability is checked first, then the permission; either
      failure rejects the call and changes nothing else. */
  function Start(s: AndroidState, call: CallId, available: bool, permission: PermissionState,
                 o: StartOptions, host: Host, failure: Option<string>): (r: AndroidState)
    ensures !available ==> r == Reply(s, call, Unavailable(NOT_AVAILABLE))
    ensures available && permission != Granted ==> r == Reply(s, call, Rejected(MISSING_PERMISSION))
    ensures available && permission == Granted ==>
              r == BeginListening(s, call, ReadOptions(o, host.defaultLocale), host, failure)
    ensures Wf(s) ==> Wf(r)
  {
    if !available then Reply(s, call, Unavailable(NOT_AVAILABLE))
    else if permission != Granted then Reply(s, call, Rejected(MISSING_PERMISSION))
    else BeginListening(s, call, ReadOptions(o, host.defaultLocale), host, failure)
  }

  /** stopListening: the recognizer is stopped and cancelled but kept; the
      cache is emptied and listening is off. */
  function StopListening(s: AndroidState): (r: AndroidState)
    ensures r.recognizer == s.recognizer && r.created == s.created && r.destroyed == s.destroyed
    ensures r.cache == [] && !r.listening && r.sent == s.sent
    ensures r.listener == s.listener && r.startedWith == s.startedWith
  {
    s.(cache := [], listening := false)
  }

  /** The stop plugin method: the call is resolved before the posted
      stopListening runs. */
  function Stop(s: AndroidState, call: CallId): (r: AndroidState)
    ensures r == StopListening(s).(sent := s.sent + [Respond(call, Resolved(Ack))])
  {
    StopListening(Reply(s, call, Resolved(Ack)))
  }

  /** destroyRecognizer (on plugin teardown): destroys and drops the
      recognizer if there is one. */
  function DestroyRecognizer(s: AndroidState): (r: AndroidState)
    ensures !r.recognizer && r.created == s.created
    ensures r.destroyed == if s.recognizer then s.destroyed + 1 else s.destroyed
    ensures Wf(s) ==> Wf(r)
    ensures r.(recognizer := s.recognizer, destroyed := s.destroyed) == s
  {
    if s.recognizer then s.(recognizer := false, destroyed := s.destroyed + 1) else s
  }

  /** The popup's activity result: only resets the listening flag. */
  function ListeningResult(s: AndroidState, call: Option<CallId>): (r: AndroidState)
    ensures call.Some? ==> !r.listening
    ensures r.(listening := s.listening) == s
    ensures call.None? ==> r == s
  {
    if call.None? then s else s.(listening := false)
  }

  // ---------------------------------------------------------------------
  // Listener callbacks

  function OnBeginningOfSpeech(s: AndroidState): (r: AndroidState)
    ensures r.sent == s.sent + [Notify(ListeningState(Started))]
    ensures r.(sent := s.sent) == s
  {
    Emit(s, ListeningState(Started))
  }

  function OnEndOfSpeech(s: AndroidState): (r: AndroidState)
    ensures !r.listening
    ensures r == s.(listening := false, sent := s.sent + [Notify(ListeningState(Stopped))])
  {
    Emit(s.(listening := false), ListeningState(Stopped))
  }

  /** onError: clears the cache and the listening flag, destroys and drops
      the recognizer, and rejects the attached call with the code's message. */
  function OnError(s: AndroidState, code: int): (r: AndroidState)
    ensures r.cache == [] && !r.listening && !r.recognizer
    ensures r.created == s.created
    ensures r.destroyed == if s.recognizer then s.destroyed + 1 else s.destroyed
    ensures Wf(s) ==> Wf(r)
    ensures r.listener == s.listener && r.startedWith == s.startedWith
    ensures r.sent == s.sent + if s.listener.call.Some?
                              then [Respond(s.listener.call.value, Rejected(GetErrorText(code)))]
                              else []
  {
    var s1 := DestroyRecognizer(s.(cache := [], listening := false));
    match s.listener.call
    case None => s1
    case Some(c) => Reply(s1, c, Rejected(GetErrorText(code)))
  }

  /** onResults: with a call attached, resolves it with the matches when
      partial results are off and emits them as partial results when on;
      the cache is empty afterwards in every case. */
  function OnResults(s: AndroidState, matches: Option<seq<string>>): (r: AndroidState)
    ensures r.cache == []
    ensures r.(cache := s.cache, sent := s.sent) == s
    ensures r.sent == s.sent +
              match s.listener.call
              case None => []
              case Some(c) =>
                if s.listener.partialResults then [Notify(PartialResults(MatchArray(matches)))]
                else [Respond(c, Resolved(SuccessMatches(MatchArray(matches))))]
  {
    var m := MatchArray(matches);
    var s1 :=
      match s.listener.call
      case None => s
      case Some(c) =>
        if !s.listener.partialResults then Reply(s, c, Resolved(SuccessMatches(m)))
        else Emit(s, PartialResults(m));
    s1.(cache := [])
  }

  /** onPartialResults: emits only a non-empty list that differs from the
      last one emitted, and remembers it. */
  function OnPartialResults(s: AndroidState, matches: Option<seq<string>>): (r: AndroidState)
  {
    if matches.Some? && |matches.value| > 0 && s.cache != matches.value then
      Emit(s.(cache := matches.value), PartialResults(matches.value))
    else s
  }

  function OnSegmentResults(s: AndroidState, matches: Option<seq<string>>): (r: AndroidState)
    ensures matches.None? ==> r == s
    ensures matches.Some? ==> r.sent == s.sent + [Notify(SegmentResults(matches.value))]
    ensures r.(sent := s.sent) == s
  {
    match matches
    case None => s
    case Some(m) => Emit(s, SegmentResults(m))
  }

  function OnEndOfSegmentedSession(s: AndroidState): (r: AndroidState)
    ensures r.sent == s.sent + [Notify(EndOfSegmentedSession)]
    ensures r.(sent := s.sent) == s
  {
    Emit(s, EndOfSegmentedSession)
  }

  /** The speech and segment callbacks each send one event, under the
      listener name and with the status text the web side listens for. */
  lemma CallbackEventsOnTheWire(s: AndroidState, matches: seq<string>)
    ensures var r := OnBeginningOfSpeech(s);
            r.sent[|r.sent| - 1].Notify?
            && EventName(r.sent[|r.sent| - 1].event) == LISTENING_EVENT
            && StatusText(r.sent[|r.sent| - 1].event.status) == "started"
    ensures var r := OnEndOfSpeech(s);
            r.sent[|r.sent| - 1].Notify?
            && EventName(r.sent[|r.sent| - 1].event) == LISTENING_EVENT
            && StatusText(r.sent[|r.sent| - 1].event.status) == "stopped"
    ensures var r := OnSegmentResults(s, Some(matches));
            r.sent[|r.sent| - 1] == Notify(SegmentResults(matches))
            && EventName(r.sent[|r.sent| - 1].event) == SEGMENT_RESULTS_EVENT
    ensures var r := OnEndOfSegmentedSession(s);
            EventName(r.sent[|r.sent| - 1].event) == END_OF_SEGMENT_EVENT
  {
  }

  // ---------------------------------------------------------------------
  // Partial-result deduplication

  /** One partial-results callback decides whether to emit, and the cache
      afterwards is the last list emitted. */
  lemma PartialResultsRule(s: AndroidState, matches: Option<seq<string>>)
    ensures var r := OnPartialResults(s, matches);
            var emits := matches.Some? && matches.value != [] && matches.value != s.cache;
            (emits ==> r == s.(cache := matches.value, sent := s.sent + [Notify(PartialResults(matches.value))]))
            && (!emits ==> r == s)
  {
  }

  /** Two identical partial-results callbacks in a row emit at most once. */
  lemma RepeatedPartialEmitsOnce(s: AndroidState, matches: Option<seq<string>>)
    ensures OnPartialResults(OnPartialResults(s, matches), matches) == OnPartialResults(s, matches)
    ensures |OnPartialResults(s, matches).sent| <= |s.sent| + 1
  {
  }

  /** A run of partial-results callbacks. */
  function RunPartials(s: AndroidState, ms: seq<Option<seq<string>>>): AndroidState
    decreases |ms|
  {
    if ms == [] then s else RunPartials(OnPartialResults(s, ms[0]), ms[1..])
  }

  /** The lists a run of partial-results callbacks emits, starting from a cache. */
  function Emitted(cache: seq<string>, ms: seq<Option<seq<string>>>): seq<seq<string>>
    decreases |ms|
  {
    if ms == [] then []
    else if ms[0].Some? && ms[0].value != [] && ms[0].value != cache then
      [ms[0].value] + Emitted(ms[0].value, ms[1..])
    else Emitted(cache, ms[1..])
  }

  function PartialEvents(es: seq<seq<string>>): (out: seq<Output>)
    ensures |out| == |es|
    ensures forall k :: 0 <= k < |es| ==> out[k] == Notify(PartialResults(es[k]))
  {
    if es == [] then [] else [Notify(PartialResults(es[0]))] + PartialEvents(es[1..])
  }

  lemma PartialEventsAppend(a: seq<seq<string>>, b: seq<seq<string>>)
    ensures PartialEvents(a + b) == PartialEvents(a) + PartialEvents(b)
  {
  }

  /** A run of partial callbacks changes nothing but the cache and the
      output. */
  lemma {:induction false} RunPartialsFrame(s: AndroidState, ms: seq<Option<seq<string>>>)
    ensures RunPartials(s, ms).(cache := s.cache, sent := s.sent) == s
    decreases |ms|
  {
    if ms != [] {
      RunPartialsFrame(OnPartialResults(s, ms[0]), ms[1..]);
    }
  }

  /** A run of partial callbacks leaves the last emitted list in the cache. */
  lemma {:induction false} RunPartialsCache(s: AndroidState, ms: seq<Option<seq<string>>>)
    ensures var es := Emitted(s.cache, ms);
            RunPartials(s, ms).cache == if es == [] then s.cache else es[|es| - 1]
    decreases |ms|
  {
    if ms != [] {
      var s1 := OnPartialResults(s, ms[0]);
      RunPartialsCache(s1, ms[1..]);
    }
  }

  /** A run of partial callbacks only appends partialResults events, one per
      emitted list. */
  lemma {:induction false} RunPartialsSent(s: AndroidState, ms: seq<Option<seq<string>>>)
    ensures RunPartials(s, ms).sent == s.sent + PartialEvents(Emitted(s.cache, ms))
    decreases |ms|
  {
    if ms != [] {
      var s1 := OnPartialResults(s, ms[0]);
      RunPartialsSent(s1, ms[1..]);
      var tail := Emitted(s1.cache, ms[1..]);
      if ms[0].Some? && ms[0].value != [] && ms[0].value != s.cache {
        var m := ms[0].value;
        assert Emitted(s.cache, ms) == [m] + tail;
        PartialEventsAppend([m], tail);
      } else {
        assert Emitted(s.cache, ms) == tail;
      }
    }
  }

  /** What a run emits: never an empty list, never the list already in the
      cache, and never the same list twice in a row. */
  lemma {:induction false} EmittedNeverRepeats(cache: seq<string>, ms: seq<Option<seq<string>>>)
    ensures var es := Emitted(cache, ms);
            (forall k :: 0 <= k < |es| ==> es[k] != [])
            && (es != [] ==> es[0] != cache)
            && (forall k :: 0 <= k < |es| - 1 ==> es[k] != es[k + 1])
    decreases |ms|
  {
    if ms != [] {
      if ms[0].Some? && ms[0].value != [] && ms[0].value != cache {
        EmittedNeverRepeats(ms[0].value, ms[1..]);
      } else {
        EmittedNeverRepeats(cache, ms[1..]);
      }
    }
  }

  // ---------------------------------------------------------------------
  // Recognizer lifetime

  /** stop never destroys or drops the recognizer, and a second stop changes
      nothing the first did not. */
  lemma StopKeepsRecognizer(s: AndroidState)
    ensures StopListening(StopListening(s)) == StopListening(s)
    ensures StopListening(s).recognizer == s.recognizer
    ensures StopListening(s).destroyed == s.destroyed
  {
  }

  /** A stop followed by a successful inline start reuses the recognizer:
      no instance is created or destroyed. */
  lemma StopThenStartReuses(s: AndroidState, stopCall: CallId, call: CallId, o: StartOptions,
                            host: Host, failure: Option<string>)
    requires s.recognizer
    requires o.popup != Some(true)
    ensures var r := Start(Stop(s, stopCall), call, true, Granted, o, host, failure);
            r.recognizer && r.created == s.created && r.destroyed == s.destroyed
  {
  }

  /** After an error the recognizer is gone, and the next inline start
      creates exactly one new instance. */
  lemma ErrorThenStartCreates(s: AndroidState, code: int, call: CallId, o: StartOptions,
                              host: Host, failure: Option<string>)
    requires Wf(s)
    requires o.popup != Some(true)
    ensures var e := OnError(s, code);
            var r := Start(e, call, true, Granted, o, host, failure);
            !e.recognizer && r.recognizer && r.created == s.created + 1
            && r.destroyed == e.destroyed && Wf(r)
  {
  }

  // ---------------------------------------------------------------------
  // Calls

  /** An error rejects the attached call if it was still pending, with the
      code's message; a call already settled keeps its outcome. */
  lemma ErrorSettlesAttachedCall(s: AndroidState, code: int)
    requires s.listener.call.Some?
    ensures var c := s.listener.call.value;
            StatusOf(OnError(s, code).sent, c)
              == if StatusOf(s.sent, c).Pending? then Settled(Rejected(GetErrorText(code)))
                 else StatusOf(s.sent, c)
  {
    var c := s.listener.call.value;
    var more := [Respond(c, Rejected(GetErrorText(code)))];
    if StatusOf(s.sent, c).Pending? {
      SettleByReply(s.sent, c, Rejected(GetErrorText(code)));
    } else {
      SettledStaysSettled(s.sent, more, c);
    }
  }

  /** A session started in partial-results mode resolves its call at once,
      so a later error cannot reject it. */
  lemma PartialSessionCallNeverRejected(s: AndroidState, call: CallId, o: StartOptions, host: Host,
                                        code: int)
    requires StatusOf(s.sent, call) == Pending
    requires o.popup != Some(true) && o.partialResults == Some(true)
    ensures var r := Start(s, call, true, Granted, o, host, None);
            StatusOf(r.sent, call) == Settled(Resolved(Ack))
            && StatusOf(OnError(r, code).sent, call) == Settled(Resolved(Ack))
  {
    var r := Start(s, call, true, Granted, o, host, None);
    SettleByReply(s.sent, call, Resolved(Ack));
    ErrorSettlesAttachedCall(r, code);
  }

  /** Scenario: an inline start without partial results, then a final result
      of one match, resolves the call with that match. */
  lemma ScenarioFinalResult(s: AndroidState, call: CallId, host: Host)
    requires StatusOf(s.sent, call) == Pending
    ensures var o := StartOptions(Some("en-US"), Some(5), None, Some(false), None, None);
            var r := OnResults(Start(s, call, true, Granted, o, host, None), Some(["hello world"]));
            StatusOf(r.sent, call) == Settled(Resolved(SuccessMatches(["hello world"])))
            && r.cache == []
  {
    var o := StartOptions(Some("en-US"), Some(5), None, Some(false), None, None);
    var st := Start(s, call, true, Granted, o, host, None);
    assert st.sent == s.sent;
    SettleByReply(s.sent, call, Resolved(SuccessMatches(["hello world"])));
  }

  /** Scenario: in partial-results mode the call resolves at once, and the
      same partial result delivered twice is emitted once. */
  lemma ScenarioRepeatedPartial(s: AndroidState, call: CallId, host: Host)
    requires StatusOf(s.sent, call) == Pending
    ensures var o := StartOptions(None, None, None, Some(true), None, None);
            var st := Start(s, call, true, Granted, o, host, None);
            var r := RunPartials(st, [Some(["hi"]), Some(["hi"])]);
            StatusOf(st.sent, call) == Settled(Resolved(Ack))
            && r.sent == st.sent + [Notify(PartialResults(["hi"]))]
  {
    var o := StartOptions(None, None, None, Some(true), None, None);
    var st := Start(s, call, true, Granted, o, host, None);
    SettleByReply(s.sent, call, Resolved(Ack));
    assert st.cache == [];
    RunPartialsSent(st, [Some(["hi"]), Some(["hi"])]);
    assert Emitted([], [Some(["hi"]), Some(["hi"])]) == [["hi"]] by {
      assert [Some(["hi"]), Some(["hi"])][1..] == [Some(["hi"])];
      assert [Some(["hi"])][1..] == [];
    }
  }

  /** Scenario: start without permission rejects and touches nothing. */
  lemma ScenarioUnauthorized(s: AndroidState, call: CallId, o: StartOptions, host: Host,
                             failure: Option<string>)
    requires StatusOf(s.sent, call) == Pending
    ensures var r := Start(s, call, true, Denied, o, host, failure);
            r.(sent := s.sent) == s
            && StatusOf(r.sent, call) == Settled(Rejected(MISSING_PERMISSION))
  {
    SettleByReply(s.sent, call, Rejected(MISSING_PERMISSION));
  }

  /** A session without partial results that is stopped and followed by a
      new inline start: the listener now carries the new call, so no later
      callback replies to the first one, which stays pending. */
  lemma RestartRebindsListener(s: AndroidState, first: CallId, stopCall: CallId, second: CallId,
                               o1: StartOptions, o2: StartOptions, host: Host)
    requires StatusOf(s.sent, first) == Pending
    requires first != stopCall && first != second
    requires o1.popup != Some(true) && o1.partialResults != Some(true) && o2.popup != Some(true)
    ensures var s1 := Start(s, first, true, Granted, o1, host, None);
            var r := Start(Stop(s1, stopCall), second, true, Granted, o2, host, None);
            s1.listener.call == Some(first) && r.listener.call == Some(second)
            && StatusOf(r.sent, first) == Pending
  {
    var s1 := Start(s, first, true, Granted, o1, host, None);
    var r := Start(Stop(s1, stopCall), second, true, Granted, o2, host, None);
    assert s1.sent == s.sent;
    var more := r.sent[|s.sent|..];
    assert r.sent == s.sent + more;
    NoReplyKeepsStatus(s.sent, more, first);
  }
}
