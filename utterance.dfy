/**
  `OSSUtterance`: the text to speak, kept as a plain string and an attributed
  string, together with the prosody settings a request copies.
 */
module Utterances {
  import opened Optional

  /** An attribute applied to a range of an attributed string. */
  datatype AttributeRun = AttributeRun(location: nat, length: nat, name: string, value: string)

  /** `NSAttributedString`: its text (`.string`) and its attribute runs. */
  datatype AttributedString = AttributedString(text: string, runs: seq<AttributeRun>)

  /** `NSAttributedString(string:)`: the text with no attributes. */
  function Unattributed(s: string): AttributedString {
    AttributedString(s, [])
  }

  /** `AVSpeechUtteranceDefaultSpeechRate`. */
  const DefaultSpeechRate: real := 0.5

  /** `AVSpeechSynthesisVoiceIdentifierAlex`. */
  const AlexIdentifier: string := "com.apple.speech.voice.Alex"

  /**
    The `speechString` getter: the stored plain string unless it is empty, in
    which case the attributed string's text.
   */
  function SpokenText(plain: string, attributed: AttributedString): (r: string)
    ensures r == plain || r == attributed.text
    ensures plain != "" ==> r == plain
    ensures r == "" <==> plain == "" && attributed.text == ""
  {
    if plain == "" && attributed.text != "" then attributed.text else plain
  }

  class OSSUtterance {
    var stringToSpeak: string
    var attributedStringToSpeak: AttributedString
    var rate: real
    var pitchMultiplier: real
    var volume: real
    /** Identifier of the platform voice attached to the utterance, if any. */
    var voice: Option<string>

    /** The values `commonInit` sets; the Alex voice is attached when the platform has it. */
    ghost predicate HasInitialSettings(alexInstalled: bool)
      reads this
    {
      && rate == DefaultSpeechRate
      && pitchMultiplier == 1.0
      && volume == 1.0
      && voice == (if alexInstalled then Some(AlexIdentifier) else None)
    }

    /** `init(string:)`. */
    constructor FromString(s: string, alexInstalled: bool)
      ensures SpeechString() == s && AttributedSpeechString() == Unattributed(s)
      ensures stringToSpeak == s
      ensures HasInitialSettings(alexInstalled)
    {
      stringToSpeak := s;
      attributedStringToSpeak := Unattributed(s);
      rate := DefaultSpeechRate;
      pitchMultiplier := 1.0;
      volume := 1.0;
      voice := if alexInstalled then Some(AlexIdentifier) else None;
    }

    /** `init(attributedString:)`. */
    constructor FromAttributedString(a: AttributedString, alexInstalled: bool)
      ensures AttributedSpeechString() == a && SpeechString() == a.text
      ensures stringToSpeak == a.text
      ensures HasInitialSettings(alexInstalled)
    {
      attributedStringToSpeak := a;
      stringToSpeak := a.text;
      rate := DefaultSpeechRate;
      pitchMultiplier := 1.0;
      volume := 1.0;
      voice := if alexInstalled then Some(AlexIdentifier) else None;
    }

    function SpeechString(): string
      reads this
    {
      SpokenText(stringToSpeak, attributedStringToSpeak)
    }

    /** The `speechString` setter: only the plain string changes. */
    method SetSpeechString(s: string)
      modifies this
      ensures stringToSpeak == s
      ensures s != "" ==> SpeechString() == s
      ensures s == "" ==> SpeechString() == attributedStringToSpeak.text
      ensures attributedStringToSpeak == old(attributedStringToSpeak)
      ensures rate == old(rate) && pitchMultiplier == old(pitchMultiplier)
      ensures volume == old(volume) && voice == old(voice)
    {
      stringToSpeak := s;
    }

    function AttributedSpeechString(): AttributedString
      reads this
    {
      attributedStringToSpeak
    }

    /** The `attributedSpeechString` setter: only the attributed string changes. */
    method SetAttributedSpeechString(a: AttributedString)
      modifies this
      ensures AttributedSpeechString() == a
      ensures stringToSpeak == old(stringToSpeak)
      ensures old(stringToSpeak) != "" ==> SpeechString() == old(SpeechString())
      ensures rate == old(rate) && pitchMultiplier == old(pitchMultiplier)
      ensures volume == old(volume) && voice == old(voice)
    {
      attributedStringToSpeak := a;
    }
  }
}
