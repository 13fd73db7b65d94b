/** The pure helpers of the iOS plugin: authorization checks and the
    truncation of a result's transcriptions. */
module IosHelpers {

  /** SFSpeechRecognizer.authorizationStatus(); `FutureStatus` stands for a
      value added by a later SDK (the `@unknown default` branch). */
  datatype SpeechAuthorization = NotDetermined | Denied | Restricted | Authorized | FutureStatus

  /** AVAudioSession.recordPermission */
  datatype RecordPermission = Undetermined | MicDenied | MicGranted

  datatype PermissionState = Granted | PermissionDenied | Prompt

  /** The raw value checkPermissions reports. */
  function RawValue(p: PermissionState): (name: string)
    ensures name == "granted" <==> p == Granted
    ensures name == "denied" <==> p == PermissionDenied
    ensures name == "prompt" <==> p == Prompt
  {
    match p
    case Granted => "granted"
    case PermissionDenied => "denied"
    case Prompt => "prompt"
  }

  /** Whether start may go on: only an explicit authorization counts. */
  function IsSpeechPermissionGranted(a: SpeechAuthorization): (granted: bool)
    ensures granted <==> a == Authorized
  {
    match a
    case Authorized => true
    case NotDetermined => false
    case Denied => false
    case Restricted => false
    case FutureStatus => false
  }

  /** Combines speech and microphone authorization: a denial on either side
      wins over anything undetermined, which wins over granted. */
  function PermissionStateOf(speech: SpeechAuthorization, mic: RecordPermission): (p: PermissionState)
    ensures p == PermissionDenied <==> speech == Denied || speech == Restricted || mic == MicDenied
    ensures p == Prompt <==> !(speech == Denied || speech == Restricted || mic == MicDenied)
                             && (speech == NotDetermined || mic == Undetermined)
    ensures p == Granted <==> (speech == Authorized || speech == FutureStatus) && mic == MicGranted
  {
    if speech == Denied || speech == Restricted || mic == MicDenied then PermissionDenied
    else if speech == NotDetermined || mic == Undetermined then Prompt
    else
      assert speech.Authorized? || speech.FutureStatus?;
      assert mic.MicGranted?;
      Granted
  }

  /** What checkPermissions reports against what start checks. A reported
      "granted" lets start pass its speech check unless the status is one the
      SDK did not know of; passing that check rules out "denied" unless the
      microphone is denied. */
  lemma PermissionStateAgreesWithStartGuard(speech: SpeechAuthorization, mic: RecordPermission)
    ensures (PermissionStateOf(speech, mic) == Granted && speech != FutureStatus)
              ==> IsSpeechPermissionGranted(speech)
    ensures (IsSpeechPermissionGranted(speech) && mic == MicGranted)
              ==> PermissionStateOf(speech, mic) == Granted
    ensures IsSpeechPermissionGranted(speech) ==>
              (PermissionStateOf(speech, mic) == PermissionDenied <==> mic == MicDenied)
    ensures PermissionStateOf(FutureStatus, MicGranted) == Granted
              && !IsSpeechPermissionGranted(FutureStatus)
  {
  }

  function Min(a: int, b: int): int
  {
    if a < b then a else b
  }

  /** How many transcriptions a result keeps: at most maxResults, and none
      when maxResults is not positive. */
  function KeptCount(count: nat, maxResults: int): (k: nat)
    ensures k <= count
    ensures k <= maxResults || k == 0
    ensures k < count ==> k == maxResults || (maxResults <= 0 && k == 0)
  {
    if maxResults <= 0 then 0 else Min(count, maxResults)
  }

  /** The first transcriptions of a result, in their original order. */
  function Truncated(transcriptions: seq<string>, maxResults: int): (matches: seq<string>)
    ensures |matches| == KeptCount(|transcriptions|, maxResults)
    ensures matches == transcriptions[..|matches|]
  {
    transcriptions[..KeptCount(|transcriptions|, maxResults)]
  }

  /** buildMatches: walks every transcription and appends it while fewer
      than maxResults have been kept. */
  method BuildMatches(transcriptions: seq<string>, maxResults: int) returns (matches: seq<string>)
    ensures matches == Truncated(transcriptions, maxResults)
  {
    matches := [];
    var i := 0;
    while i < |transcriptions|
      invariant 0 <= i <= |transcriptions|
      invariant matches == transcriptions[..KeptCount(i, maxResults)]
    {
      if |matches| < maxResults {
        matches := matches + [transcriptions[i]];
      }
      i := i + 1;
    }
  }
}
