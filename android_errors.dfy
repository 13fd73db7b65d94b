/** The Android error classifier: the recognizer's integer error codes and
    the message `getErrorText` gives each of them. */
module AndroidErrors {

  /** The codes SpeechRecognizer reports, with every other integer kept as is. */
  datatype ErrorCode =
    | NetworkTimeout
    | Network
    | Audio
    | Server
    | Client
    | SpeechTimeout
    | NoMatch
    | RecognizerBusy
    | InsufficientPermissions
    | ServerDisconnected
    | Other(code: int)

  /** The platform's integer for each code (SpeechRecognizer.ERROR_*). */
  function Value(e: ErrorCode): int
  {
    match e
    case NetworkTimeout => 1
    case Network => 2
    case Audio => 3
    case Server => 4
    case Client => 5
    case SpeechTimeout => 6
    case NoMatch => 7
    case RecognizerBusy => 8
    case InsufficientPermissions => 9
    case ServerDisconnected => 11
    case Other(c) => c
  }

  /** The integers the switch in getErrorText has a case for. */
  predicate IsKnownValue(v: int)
  {
    1 <= v <= 9 || v == 11
  }

  /** An `Other` code never hides a known integer. */
  predicate WellFormed(e: ErrorCode)
  {
    e.Other? ==> !IsKnownValue(e.code)
  }

  /** Reads an integer error code. */
  function Classify(v: int): (e: ErrorCode)
    ensures Value(e) == v && WellFormed(e)
    ensures e.Other? <==> !IsKnownValue(v)
  {
    if v == 1 then NetworkTimeout
    else if v == 2 then Network
    else if v == 3 then Audio
    else if v == 4 then Server
    else if v == 5 then Client
    else if v == 6 then SpeechTimeout
    else if v == 7 then NoMatch
    else if v == 8 then RecognizerBusy
    else if v == 9 then InsufficientPermissions
    else if v == 11 then ServerDisconnected
    else Other(v)
  }

  /** Reading back the integer of a well-formed code gives that code. */
  lemma ClassifyValue(e: ErrorCode)
    requires WellFormed(e)
    ensures Classify(Value(e)) == e
  {
  }

  // ---------------------------------------------------------------------
  // Integer.toString

  function DigitChar(d: nat): (ch: char)
    requires d < 10
    ensures '0' <= ch <= '9'
  {
    "0123456789"[d]
  }

  lemma DigitCharInjective(a: nat, b: nat)
    requires a < 10 && b < 10 && DigitChar(a) == DigitChar(b)
    ensures a == b
  {
  }

  /** Decimal digits of n, most significant first, without leading zeros. */
  function NatToString(n: nat): (s: string)
    ensures 1 <= |s|
    ensures n >= 10 ==> |s| >= 2
    ensures forall i :: 0 <= i < |s| ==> '0' <= s[i] <= '9'
    decreases n
  {
    if n < 10 then [DigitChar(n)] else NatToString(n / 10) + [DigitChar(n % 10)]
  }

  /** Java's Integer.toString: a minus sign before the digits of a negative number. */
  function IntToString(i: int): (s: string)
    ensures 1 <= |s|
    ensures s[0] == '-' <==> i < 0
  {
    if i < 0 then "-" + NatToString(-i) else NatToString(i)
  }

  /** Different numbers are written differently. */
  lemma {:induction false} NatToStringInjective(a: nat, b: nat)
    requires NatToString(a) == NatToString(b)
    ensures a == b
  {
    var s := NatToString(a);
    if a < 10 && b < 10 {
      DigitCharInjective(a, b);
    } else if a >= 10 && b >= 10 {
      assert s == NatToString(a / 10) + [DigitChar(a % 10)];
      assert s == NatToString(b / 10) + [DigitChar(b % 10)];
      assert s[|s| - 1] == DigitChar(a % 10) == DigitChar(b % 10);
      DigitCharInjective(a % 10, b % 10);
      assert s[..|s| - 1] == NatToString(a / 10) == NatToString(b / 10);
      NatToStringInjective(a / 10, b / 10);
    }
  }

  lemma IntToStringInjective(a: int, b: int)
    requires IntToString(a) == IntToString(b)
    ensures a == b
  {
    var s := IntToString(a);
    if a < 0 {
      assert b < 0;
      assert s[1..] == NatToString(-a) == NatToString(-b);
      NatToStringInjective(-a, -b);
    } else {
      assert b >= 0;
      NatToStringInjective(a, b);
    }
  }

  // ---------------------------------------------------------------------
  // getErrorText

  const UNKNOWN_ERROR_PREFIX := "Didn't understand, please try again. Error code: "

  /** The message for a classified code. */
  function Message(e: ErrorCode): (text: string)
    ensures !e.Other? ==> |text| < |UNKNOWN_ERROR_PREFIX|
    ensures e.Other? ==> text == UNKNOWN_ERROR_PREFIX + IntToString(e.code)
  {
    match e
    case Audio => "Audio recording error"
    case Client => "Client side error"
    case InsufficientPermissions => "Insufficient permissions"
    case Network => "Network error"
    case NetworkTimeout => "Network timeout"
    case NoMatch => "No match"
    case RecognizerBusy => "RecognitionService busy"
    case Server => "Error from server"
    case SpeechTimeout => "No speech input"
    case ServerDisconnected => "Server disconnected"
    case Other(c) => UNKNOWN_ERROR_PREFIX + IntToString(c)
  }

  /** The message the listener rejects a call with, for any integer code. */
  function GetErrorText(code: int): (text: string)
    ensures IsKnownValue(code) ==> |text| < |UNKNOWN_ERROR_PREFIX|
    ensures !IsKnownValue(code) ==> text == UNKNOWN_ERROR_PREFIX + IntToString(code)
  {
    Message(Classify(code))
  }

  /** The ten known codes have ten different messages. */
  lemma {:induction false} MessageInjective(e1: ErrorCode, e2: ErrorCode)
    requires !e1.Other? && !e2.Other? && Message(e1) == Message(e2)
    ensures e1 == e2
  {
  }

  /** Distinct codes always give distinct messages, so the message
      identifies the code, including the unknown ones. */
  lemma GetErrorTextInjective(a: int, b: int)
    requires GetErrorText(a) == GetErrorText(b)
    ensures a == b
  {
    var ea, eb := Classify(a), Classify(b);
    if !ea.Other? && !eb.Other? {
      MessageInjective(ea, eb);
    } else if ea.Other? && eb.Other? {
      var p := UNKNOWN_ERROR_PREFIX;
      assert GetErrorText(a)[|p|..] == IntToString(a);
      assert GetErrorText(b)[|p|..] == IntToString(b);
      IntToStringInjective(a, b);
    }
  }
}
