/** What crosses the plugin bridge: replies to plugin calls (each call is a
    JavaScript promise) and notifications to registered listeners. Both
    controllers append to one ordered output log, so the order of replies
    and events is part of the model. */
module Bridge {

  datatype Option<+T> = None | Some(value: T) {
    function GetOr(default: T): T {
      match this
      case Some(v) => v
      case None => default
    }
  }

  /** Identifies one plugin call across the bridge (its callback id). */
  type CallId = nat

  /** Data a call is resolved with. */
  datatype Payload =
    | Ack                                   // resolve() with no data
    | Matches(matches: seq<string>)         // { matches }
    | SuccessMatches(matches: seq<string>)  // { status: "success", matches }
    | PermissionStatus(speechRecognition: string)  // { speechRecognition }
    | ListeningFlag(listening: bool)        // { listening }

  datatype Reply =
    | Resolved(payload: Payload)
    | Rejected(message: string)
    | Unavailable(message: string)          // Capacitor's call.unavailable(...)

  datatype ListeningStatus = Started | Stopped

  datatype Event =
    | ListeningState(status: ListeningStatus)
    | PartialResults(matches: seq<string>)
    | SegmentResults(matches: seq<string>)
    | EndOfSegmentedSession

  datatype Output = Notify(event: Event) | Respond(call: CallId, reply: Reply)

  const LISTENING_EVENT := "listeningState"
  const PARTIAL_RESULTS_EVENT := "partialResults"
  const SEGMENT_RESULTS_EVENT := "segmentResults"
  const END_OF_SEGMENT_EVENT := "endOfSegmentedSession"

  /** The listener name an event is delivered under. */
  function EventName(e: Event): (name: string)
    ensures e.ListeningState? <==> name == LISTENING_EVENT
    ensures e.PartialResults? <==> name == PARTIAL_RESULTS_EVENT
    ensures e.SegmentResults? <==> name == SEGMENT_RESULTS_EVENT
    ensures e.EndOfSegmentedSession? <==> name == END_OF_SEGMENT_EVENT
  {
    match e
    case ListeningState(_) => LISTENING_EVENT
    case PartialResults(_) => PARTIAL_RESULTS_EVENT
    case SegmentResults(_) => SEGMENT_RESULTS_EVENT
    case EndOfSegmentedSession => END_OF_SEGMENT_EVENT
  }

  /** The text of the `status` field of a listeningState event. */
  function StatusText(st: ListeningStatus): (text: string)
    ensures text == "started" <==> st == Started
    ensures text == "stopped" <==> st == Stopped
  {
    match st
    case Started => "started"
    case Stopped => "stopped"
  }

  /** What the caller of a plugin call observes: a promise settles with the
      first reply sent for it; later replies to the same call are dropped. */
  datatype CallStatus = Pending | Settled(reply: Reply)

  function StatusOf(out: seq<Output>, c: CallId): CallStatus
  {
    if out == [] then Pending
    else if out[0].Respond? && out[0].call == c then Settled(out[0].reply)
    else StatusOf(out[1..], c)
  }

  /** Appending output never changes the status of a call that was already
      settled: a call is resolved or rejected at most once. */
  lemma {:induction false} SettledStaysSettled(out: seq<Output>, more: seq<Output>, c: CallId)
    requires StatusOf(out, c).Settled?
    ensures StatusOf(out + more, c) == StatusOf(out, c)
  {
    assert out != [];
    assert (out + more)[0] == out[0];
    if !(out[0].Respond? && out[0].call == c) {
      assert (out + more)[1..] == out[1..] + more;
      SettledStaysSettled(out[1..], more, c);
    }
  }

  /** For a call still pending, its status after more output is decided by
      that output alone. */
  lemma {:induction false} PendingThenAppend(out: seq<Output>, more: seq<Output>, c: CallId)
    requires StatusOf(out, c) == Pending
    ensures StatusOf(out + more, c) == StatusOf(more, c)
  {
    if out != [] {
      assert (out + more)[0] == out[0];
      assert (out + more)[1..] == out[1..] + more;
      PendingThenAppend(out[1..], more, c);
    } else {
      assert out + more == more;
    }
  }

  /** Sending one reply to a pending call settles it with that reply. */
  lemma SettleByReply(out: seq<Output>, c: CallId, r: Reply)
    requires StatusOf(out, c) == Pending
    ensures StatusOf(out + [Respond(c, r)], c) == Settled(r)
  {
    PendingThenAppend(out, [Respond(c, r)], c);
  }

  /** Output that holds no reply to a call leaves that call's status as it was. */
  lemma {:induction false} NoReplyKeepsStatus(out: seq<Output>, more: seq<Output>, c: CallId)
    requires forall k :: 0 <= k < |more| ==> !(more[k].Respond? && more[k].call == c)
    ensures StatusOf(out + more, c) == StatusOf(out, c)
  {
    if StatusOf(out, c).Settled? {
      SettledStaysSettled(out, more, c);
    } else {
      PendingThenAppend(out, more, c);
      NoReplyPending(more, c);
    }
  }

  lemma {:induction false} NoReplyPending(more: seq<Output>, c: CallId)
    requires forall k :: 0 <= k < |more| ==> !(more[k].Respond? && more[k].call == c)
    ensures StatusOf(more, c) == Pending
  {
    if more != [] {
      assert !(more[0].Respond? && more[0].call == c);
      NoReplyPending(more[1..], c);
    }
  }
}
