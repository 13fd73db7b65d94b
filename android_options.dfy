/** What the Android `start` call reads from its arguments, the recognizer
    intent it builds from them, and the permission-state names. */
module AndroidOptions {
  import opened Bridge

  const MAX_RESULTS := 5

  /** The arguments of a `start` call as the caller passed them; an absent
      key is `None`. */
  datatype StartOptions = StartOptions(
    language: Option<string>,
    maxResults: Option<int>,
    prompt: Option<string>,
    partialResults: Option<bool>,
    popup: Option<bool>,
    allowForSilence: Option<int>)

  /** The options after defaults are applied. */
  datatype RecognitionConfig = RecognitionConfig(
    language: string,
    maxResults: int,
    prompt: Option<string>,
    partialResults: bool,
    popup: bool,
    allowForSilence: int)

  /** Facts about the host the plugin runs in. */
  datatype Host = Host(defaultLocale: string, packageName: string)

  /** Reads the options of a `start` call, falling back to the defaults. */
  function ReadOptions(o: StartOptions, defaultLocale: string): (c: RecognitionConfig)
    ensures o.language.Some? ==> c.language == o.language.value
    ensures o.language.None? ==> c.language == defaultLocale
    ensures o.maxResults.None? ==> c.maxResults == MAX_RESULTS
    ensures o.maxResults.Some? ==> c.maxResults == o.maxResults.value
    ensures c.prompt == o.prompt
    ensures c.partialResults <==> o.partialResults == Some(true)
    ensures c.popup <==> o.popup == Some(true)
    ensures o.allowForSilence.None? ==> c.allowForSilence == 0
    ensures o.allowForSilence.Some? ==> c.allowForSilence == o.allowForSilence.value
  {
    RecognitionConfig(
      o.language.GetOr(defaultLocale),
      o.maxResults.GetOr(MAX_RESULTS),
      o.prompt,
      o.partialResults.GetOr(false),
      o.popup.GetOr(false),
      o.allowForSilence.GetOr(0))
  }

  /** A call without arguments: the defaults. */
  lemma DefaultOptions(defaultLocale: string)
    ensures ReadOptions(StartOptions(None, None, None, None, None, None), defaultLocale)
         == RecognitionConfig(defaultLocale, 5, None, false, false, 0)
  {
  }

  /** The extras of a recognizer intent (RecognizerIntent.EXTRA_*). */
  datatype ExtraKey =
    | LanguageModel
    | Language
    | MaxResults
    | CallingPackage
    | PartialResultsExtra
    | DictationMode
    | SegmentedSession
    | CompleteSilenceMillis
    | PossiblyCompleteSilenceMillis
    | PromptExtra

  datatype Extra = Text(text: string) | Number(number: int) | Flag(flag: bool)

  /** A recognize-speech intent, as the extras put into it. */
  type Intent = map<ExtraKey, Extra>

  const LANGUAGE_MODEL_FREE_FORM := "free_form"

  /** The intent beginListening hands to the recognizer or the popup. */
  function BuildIntent(c: RecognitionConfig, packageName: string): (intent: Intent)
    ensures LanguageModel in intent && intent[LanguageModel] == Text(LANGUAGE_MODEL_FREE_FORM)
    ensures Language in intent && intent[Language] == Text(c.language)
    ensures MaxResults in intent && intent[MaxResults] == Number(c.maxResults)
    ensures CallingPackage in intent && intent[CallingPackage] == Text(packageName)
    ensures PartialResultsExtra in intent && intent[PartialResultsExtra] == Flag(c.partialResults)
    ensures DictationMode in intent && intent[DictationMode] == Flag(c.partialResults)
    // segmented-session mode and both silence lengths exactly when silence is allowed
    ensures SegmentedSession in intent <==> c.allowForSilence > 0
    ensures CompleteSilenceMillis in intent <==> c.allowForSilence > 0
    ensures PossiblyCompleteSilenceMillis in intent <==> c.allowForSilence > 0
    ensures c.allowForSilence > 0 ==>
              intent[SegmentedSession] == Flag(true)
              && intent[CompleteSilenceMillis] == Number(c.allowForSilence)
              && intent[PossiblyCompleteSilenceMillis] == Number(c.allowForSilence)
    // a prompt exactly when one was given
    ensures PromptExtra in intent <==> c.prompt.Some?
    ensures c.prompt.Some? ==> intent[PromptExtra] == Text(c.prompt.value)
  {
    var base := map[
      LanguageModel := Text(LANGUAGE_MODEL_FREE_FORM),
      Language := Text(c.language),
      MaxResults := Number(c.maxResults),
      CallingPackage := Text(packageName),
      PartialResultsExtra := Flag(c.partialResults),
      DictationMode := Flag(c.partialResults)];
    var segmented :=
      if c.allowForSilence > 0 then
        base[SegmentedSession := Flag(true)]
            [CompleteSilenceMillis := Number(c.allowForSilence)]
            [PossiblyCompleteSilenceMillis := Number(c.allowForSilence)]
      else base;
    if c.prompt.Some? then segmented[PromptExtra := Text(c.prompt.value)] else segmented
  }

  /** Capacitor's permission states. */
  datatype PermissionState = Granted | Denied | Prompt | PromptWithRationale

  /** The name checkPermissions reports for a permission state. */
  function PermissionStateValue(p: PermissionState): (name: string)
    ensures name == "granted" <==> p == Granted
    ensures name == "denied" <==> p == Denied
    ensures name == "prompt" <==> (p == Prompt || p == PromptWithRationale)
  {
    match p
    case Granted => "granted"
    case Denied => "denied"
    case Prompt => "prompt"
    case PromptWithRationale => "prompt"
  }
}
