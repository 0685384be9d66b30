/**
  `OSSSpeech`: the coordinator that turns text into synthesizer requests.
  The platform synthesizer is modelled as the log of requests handed to it.
 */
module Speech {
  import opened Optional
  import opened Voices
  import opened Utterances

  /** One request handed to the synthesizer: a new platform utterance. */
  datatype Request = Request(text: string, rate: real, pitchMultiplier: real, volume: real, voice: OSSVoice)

  /** How a call to `speakText`, `speakAttributedText` or `speak` ends. */
  datatype SpeakOutcome =
    | EmptyInput          // the text passed in is empty: the call returns at once
    | NoUtterance         // `speak` finds no utterance
    | EmptySpeechString   // `speak` finds an empty speech string
    | Submitted           // one request reached the synthesizer
    | Trapped             // `self.voice!` found no voice: the program stops

  /** `voiceIsValid`, in terms of what it inspects. */
  predicate VoiceCheck(hasVoice: bool, hasUtterance: bool, utteranceHasVoice: bool) {
    hasVoice || (hasUtterance && utteranceHasVoice)
  }

  /**
    What `speak` does, given whether a voice and an utterance are set, whether
    the utterance carries a voice of its own, and the utterance's speech string.
    A default voice is assigned first when `voiceIsValid` fails.
   */
  function SpeakDecision(hasVoice: bool, hasUtterance: bool, utteranceHasVoice: bool, speechString: string): (o: SpeakOutcome)
    ensures o == Trapped <==> !hasVoice && hasUtterance && utteranceHasVoice && speechString != ""
    ensures o == Submitted <==> hasUtterance && speechString != "" && (hasVoice || !utteranceHasVoice)
    ensures o != EmptyInput
  {
    var voiceAfterDefault := hasVoice || !VoiceCheck(hasVoice, hasUtterance, utteranceHasVoice);
    if !hasUtterance then NoUtterance
    else if speechString == "" then EmptySpeechString
    else if voiceAfterDefault then Submitted
    else Trapped
  }

  class OSSSpeech {
    var voice: OSSVoice?
    var utterance: OSSUtterance?
    /** The synthesizer: every request handed to it, oldest first. */
    var spoken: seq<Request>

    constructor ()
      ensures voice == null && utterance == null && spoken == []
    {
      voice := null;
      utterance := null;
      spoken := [];
    }

    /** `utteranceIsValid`: an utterance is set. */
    predicate UtteranceIsValid()
      reads this
    {
      utterance != null
    }

    /**
      `voiceIsValid`, as its guards are nested: a set voice passes; otherwise
      only a set utterance that carries a voice of its own does.
     */
    function VoiceIsValid(): (valid: bool)
      reads this, utterance
      ensures valid <==> VoiceCheck(voice != null, UtteranceIsValid(), UtteranceIsValid() && utterance.voice.Some?)
      ensures voice != null ==> valid
      ensures !UtteranceIsValid() ==> (valid <==> voice != null)
    {
      if voice != null then true
      else if UtteranceIsValid() then utterance.voice.Some?
      else false
    }

    /** The request `speak` builds: a new platform utterance copied from `u`, spoken by `v`. */
    function RequestFor(u: OSSUtterance, v: OSSVoice): Request
      reads u
    {
      Request(u.SpeechString(), u.rate, u.pitchMultiplier, u.volume, v)
    }

    /** `speak`: submit one request copied from the stored utterance. */
    method Speak() returns (o: SpeakOutcome)
      modifies this
      ensures utterance == old(utterance)
      ensures o == SpeakDecision(old(voice) != null, utterance != null,
                                 utterance != null && utterance.voice.Some?,
                                 if utterance != null then utterance.SpeechString() else "")
      ensures old(VoiceIsValid()) ==> voice == old(voice)
      ensures !old(VoiceIsValid()) ==> voice != null && fresh(voice) && voice.IsDefaultVoice()
      ensures o == Submitted ==> voice != null && utterance != null && spoken == old(spoken) + [RequestFor(utterance, voice)]
      ensures o != Submitted ==> spoken == old(spoken)
    {
      if !VoiceIsValid() {
        voice := new OSSVoice();
      }
      if utterance == null {
        return NoUtterance;
      }
      var validString := utterance.SpeechString();
      if validString == "" {
        return EmptySpeechString;
      }
      if voice == null {
        return Trapped;
      }
      spoken := spoken + [Request(validString, utterance.rate, utterance.pitchMultiplier, utterance.volume, voice)];
      o := Submitted;
    }

    /**
      `speakText(text:)`. `alexInstalled` tells whether the platform has the
      Alex voice that a newly created utterance attaches.
     */
    method SpeakText(text: string, alexInstalled: bool) returns (o: SpeakOutcome)
      modifies this, utterance
      // Empty text changes nothing.
      ensures text == "" ==> o == EmptyInput && unchanged(this)
      ensures text == "" && old(utterance) != null ==> unchanged(old(utterance))
      // Otherwise the utterance speaks `text`; an existing one is reused.
      ensures text != "" ==> utterance != null && utterance.SpeechString() == text
      ensures text != "" && old(utterance) != null ==>
        && utterance == old(utterance)
        && utterance.stringToSpeak == (if old(utterance.SpeechString()) == text then old(utterance.stringToSpeak) else text)
        && utterance.attributedStringToSpeak == old(utterance.attributedStringToSpeak)
        && utterance.rate == old(utterance.rate)
        && utterance.pitchMultiplier == old(utterance.pitchMultiplier)
        && utterance.volume == old(utterance.volume)
        && utterance.voice == old(utterance.voice)
      ensures text != "" && old(utterance) == null ==>
        && fresh(utterance)
        && utterance.stringToSpeak == text
        && utterance.attributedStringToSpeak == Unattributed(text)
        && utterance.HasInitialSettings(alexInstalled)
      // The voice: kept when set, defaulted only when the utterance has none either.
      ensures text != "" && old(voice) != null ==> voice == old(voice)
      ensures text != "" && old(voice) == null && utterance.voice.None? ==>
        voice != null && fresh(voice) && voice.IsDefaultVoice()
      // One request, or a trap when neither a voice was set nor defaulted.
      ensures text != "" ==> o == (if old(voice) == null && utterance.voice.Some? then Trapped else Submitted)
      ensures o == Trapped ==> voice == null
      ensures o == Submitted ==> voice != null && spoken == old(spoken) + [RequestFor(utterance, voice)]
      ensures o != Submitted ==> spoken == old(spoken)
    {
      if text == "" {
        return EmptyInput;
      }
      if !UtteranceIsValid() {
        utterance := new OSSUtterance.FromString(text, alexInstalled);
      }
      if utterance.SpeechString() != text {
        utterance.SetSpeechString(text);
      }
      o := Speak();
    }

    /** `speakAttributedText(attributedText:)`. */
    method SpeakAttributedText(attributedText: AttributedString, alexInstalled: bool) returns (o: SpeakOutcome)
      modifies this, utterance
      ensures attributedText.text == "" ==> o == EmptyInput && unchanged(this)
      ensures attributedText.text == "" && old(utterance) != null ==> unchanged(old(utterance))
      ensures attributedText.text != "" ==>
        utterance != null && utterance.AttributedSpeechString().text == attributedText.text
      // An existing utterance keeps its plain string, which the getter prefers.
      ensures attributedText.text != "" ==>
        utterance.SpeechString() ==
          (if old(utterance) != null && old(utterance.stringToSpeak) != "" then old(utterance.stringToSpeak)
           else attributedText.text)
      ensures attributedText.text != "" && old(utterance) != null ==>
        && utterance == old(utterance)
        && utterance.attributedStringToSpeak ==
             (if old(utterance.attributedStringToSpeak.text) == attributedText.text
              then old(utterance.attributedStringToSpeak) else attributedText)
        && utterance.stringToSpeak == old(utterance.stringToSpeak)
        && utterance.rate == old(utterance.rate)
        && utterance.pitchMultiplier == old(utterance.pitchMultiplier)
        && utterance.volume == old(utterance.volume)
        && utterance.voice == old(utterance.voice)
      ensures attributedText.text != "" && old(utterance) == null ==>
        && fresh(utterance)
        && utterance.attributedStringToSpeak == attributedText
        && utterance.stringToSpeak == attributedText.text
        && utterance.HasInitialSettings(alexInstalled)
      ensures attributedText.text != "" && old(voice) != null ==> voice == old(voice)
      ensures attributedText.text != "" && old(voice) == null && utterance.voice.None? ==>
        voice != null && fresh(voice) && voice.IsDefaultVoice()
      ensures attributedText.text != "" ==>
        o == (if old(voice) == null && utterance.voice.Some? then Trapped else Submitted)
      ensures o == Trapped ==> voice == null
      ensures o == Submitted ==> voice != null && spoken == old(spoken) + [RequestFor(utterance, voice)]
      ensures o != Submitted ==> spoken == old(spoken)
    {
      if attributedText.text == "" {
        return EmptyInput;
      }
      if !UtteranceIsValid() {
        utterance := new OSSUtterance.FromAttributedString(attributedText, alexInstalled);
      }
      if utterance.AttributedSpeechString().text != attributedText.text {
        utterance.SetAttributedSpeechString(attributedText);
      }
      o := Speak();
    }
  }

  /**
    With no voice set, speaking on a platform that has the Alex voice creates
    an utterance carrying that voice, so no default is assigned and the
    unwrap of the missing voice traps.
   */
  method SpeakTextWithoutVoiceTraps() returns (o: SpeakOutcome, requests: nat)
    ensures o == Trapped && requests == 0
  {
    var speech := new OSSSpeech();
    o := speech.SpeakText("Test One", true);
    requests := |speech.spoken|;
  }

  /** Without the Alex voice the same call falls back to the default voice and is spoken. */
  method SpeakTextWithoutAnyVoiceUsesDefault() returns (o: SpeakOutcome, language: string, text: string)
    ensures o == Submitted && language == "en-US" && text == "Test One"
  {
    var speech := new OSSSpeech();
    o := speech.SpeakText("Test One", false);
    language := speech.voice.Language();
    text := speech.spoken[|speech.spoken| - 1].text;
  }

  /** Speaking through a prepared utterance keeps its rate, volume and pitch and copies them into the request. */
  method ReusedUtteranceKeepsProsody() returns (kept: bool, request: Request)
    ensures kept
    ensures request.text == "Testing" && request.rate == 0.5 && request.volume == 0.5 && request.pitchMultiplier == 1.2
  {
    var voice := new OSSVoice();
    voice.SetLanguage(RawValue(Indonesian));
    voice.SetQuality(Enhanced);
    var speech := new OSSSpeech();
    speech.voice := voice;
    var u := new OSSUtterance.FromString("Testing", true);
    u.volume, u.rate, u.pitchMultiplier := 0.5, 0.5, 1.2;
    speech.utterance := u;
    var o := speech.SpeakText(u.SpeechString(), true);
    kept := speech.utterance == u && u.rate == 0.5 && u.volume == 0.5 && u.pitchMultiplier == 1.2
      && speech.voice.Quality() == Enhanced && speech.voice.VoiceType() == UnitedStatesEnglish;
    request := speech.spoken[|speech.spoken| - 1];
  }

  /**
    Speaking attributed text through an utterance that already holds a plain
    string submits that plain string, not the attributed text.
   */
  method AttributedTextSpeaksEarlierPlainString() returns (text: string)
    ensures text == "Old"
  {
    var speech := new OSSSpeech();
    speech.voice := new OSSVoice();
    var first := speech.SpeakText("Old", true);
    var second := speech.SpeakAttributedText(Unattributed("New"), true);
    text := speech.spoken[|speech.spoken| - 1].text;
  }
}
