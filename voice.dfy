/**
  The voice catalogue (`OSSVoiceEnum`), the details looked up for a catalogue
  entry, and the configurable voice object (`OSSVoice`).
 */
module Voices {
  import opened Optional

  /** The 37 voices the SDK offers, in declaration order. */
  datatype OSSVoiceEnum =
    | SaudiArabian | Czech | Danish | German | Greek | Australian | English
    | IrishEnglish | UnitedStatesEnglish | SouthAfricanEnglish | Spanish | Mexican
    | Finnish | CanadianFrench | French | Hebrew | Hindi | Hungarian | Indonesian
    | Italian | Japanese | Korean | DutchBelgium | DutchNetherlands | Norwegian
    | Polish | Brazilian | Portuguese | Romanian | Russian | Slovakian | Swedish
    | Thai | Turkish | Chinese | ChineseHongKong | Taiwanese

  /**
    The raw value of a case: its language-region tag, two lower-case letters,
    a hyphen and two upper-case letters.
   */
  function RawValue(v: OSSVoiceEnum): (tag: string)
    ensures IsLanguageTag(tag)
  {
    match v
    case SaudiArabian => "ar-SA"
    case Czech => "cs-CZ"
    case Danish => "da-DK"
    case German => "de-DE"
    case Greek => "el-GR"
    case Australian => "en-AU"
    case English => "en-GB"
    case IrishEnglish => "en-IE"
    case UnitedStatesEnglish => "en-US"
    case SouthAfricanEnglish => "en-ZA"
    case Spanish => "es-ES"
    case Mexican => "es-MX"
    case Finnish => "fi-FI"
    case CanadianFrench => "fr-CA"
    case French => "fr-FR"
    case Hebrew => "he-IL"
    case Hindi => "hi-IN"
    case Hungarian => "hu-HU"
    case Indonesian => "id-ID"
    case Italian => "it-IT"
    case Japanese => "ja-JP"
    case Korean => "ko-KR"
    case DutchBelgium => "nl-BE"
    case DutchNetherlands => "nl-NL"
    case Norwegian => "no-NO"
    case Polish => "pl-PL"
    case Brazilian => "pt-BR"
    case Portuguese => "pt-PT"
    case Romanian => "ro-RO"
    case Russian => "ru-RU"
    case Slovakian => "sk-SK"
    case Swedish => "sv-SE"
    case Thai => "th-TH"
    case Turkish => "tr-TR"
    case Chinese => "zh-CH"
    case ChineseHongKong => "zh-HK"
    case Taiwanese => "zh-TW"
  }

  /** `OSSVoiceEnum.allCases`: every case once, in declaration order. */
  const AllCases: seq<OSSVoiceEnum> := [
    SaudiArabian, Czech, Danish, German, Greek, Australian, English,
    IrishEnglish, UnitedStatesEnglish, SouthAfricanEnglish, Spanish, Mexican,
    Finnish, CanadianFrench, French, Hebrew, Hindi, Hungarian, Indonesian,
    Italian, Japanese, Korean, DutchBelgium, DutchNetherlands, Norwegian,
    Polish, Brazilian, Portuguese, Romanian, Russian, Slovakian, Swedish,
    Thai, Turkish, Chinese, ChineseHongKong, Taiwanese]

  /** Two lower-case letters, a hyphen, two upper-case letters ("en-US"). */
  predicate IsLanguageTag(s: string) {
    && |s| == 5
    && 'a' <= s[0] <= 'z' && 'a' <= s[1] <= 'z'
    && s[2] == '-'
    && 'A' <= s[3] <= 'Z' && 'A' <= s[4] <= 'Z'
  }

  /** Strict lexicographic order on language tags. */
  predicate TagBefore(a: string, b: string)
    requires IsLanguageTag(a) && IsLanguageTag(b)
  {
    || a[0] < b[0]
    || (a[0] == b[0] && a[1] < b[1])
    || (a[0] == b[0] && a[1] == b[1] && a[3] < b[3])
    || (a[0] == b[0] && a[1] == b[1] && a[3] == b[3] && a[4] < b[4])
  }

  /** `allCases` is complete: every case occurs in it. */
  lemma AllCasesComplete(v: OSSVoiceEnum)
    ensures v in AllCases
  {
    match v
    case _ =>
  }

  // The catalogue is declared in ascending order of its tags; checked six neighbours at a time.

  lemma AscendingFrom0()
    ensures forall i :: 0 <= i < 6 ==> TagBefore(RawValue(AllCases[i]), RawValue(AllCases[i + 1]))
  {
  }

  lemma AscendingFrom6()
    ensures forall i :: 6 <= i < 12 ==> TagBefore(RawValue(AllCases[i]), RawValue(AllCases[i + 1]))
  {
  }

  lemma AscendingFrom12()
    ensures forall i :: 12 <= i < 18 ==> TagBefore(RawValue(AllCases[i]), RawValue(AllCases[i + 1]))
  {
  }

  lemma AscendingFrom18()
    ensures forall i :: 18 <= i < 24 ==> TagBefore(RawValue(AllCases[i]), RawValue(AllCases[i + 1]))
  {
  }

  lemma AscendingFrom24()
    ensures forall i :: 24 <= i < 30 ==> TagBefore(RawValue(AllCases[i]), RawValue(AllCases[i + 1]))
  {
  }

  lemma AscendingFrom30()
    ensures forall i :: 30 <= i < 36 ==> TagBefore(RawValue(AllCases[i]), RawValue(AllCases[i + 1]))
  {
  }

  lemma AllCasesAscending()
    ensures |AllCases| == 37
    ensures forall i :: 0 <= i < |AllCases| ==> IsLanguageTag(RawValue(AllCases[i]))
    ensures forall i :: 0 <= i < |AllCases| - 1 ==>
      TagBefore(RawValue(AllCases[i]), RawValue(AllCases[i + 1]))
  {
    AscendingFrom0();
    AscendingFrom6();
    AscendingFrom12();
    AscendingFrom18();
    AscendingFrom24();
    AscendingFrom30();
  }

  /** In a sequence of tags whose neighbours are ascending, every earlier tag is before every later one. */
  lemma {:induction false} AscendingPairwise(tags: seq<string>, i: nat, j: nat)
    requires forall k :: 0 <= k < |tags| ==> IsLanguageTag(tags[k])
    requires forall k :: 0 <= k < |tags| - 1 ==> TagBefore(tags[k], tags[k + 1])
    requires i < j < |tags|
    ensures TagBefore(tags[i], tags[j])
    decreases j - i
  {
    if i + 1 < j {
      AscendingPairwise(tags, i, j - 1);
    }
  }

  /** `allCases` has 37 entries with pairwise distinct raw values. */
  lemma AllCasesDistinct()
    ensures |AllCases| == 37
    ensures forall i, j :: 0 <= i < j < |AllCases| ==> RawValue(AllCases[i]) != RawValue(AllCases[j])
  {
    AllCasesAscending();
    var tags := seq(|AllCases|, k requires 0 <= k < |AllCases| => RawValue(AllCases[k]));
    forall i, j | 0 <= i < j < |AllCases|
      ensures RawValue(AllCases[i]) != RawValue(AllCases[j])
    {
      AscendingPairwise(tags, i, j);
    }
  }

  /** The first case in `cases` whose raw value is `s`. */
  function FindRaw(s: string, cases: seq<OSSVoiceEnum>): (r: Option<OSSVoiceEnum>)
    ensures r.Some? ==> r.value in cases && RawValue(r.value) == s
    ensures r.None? ==> forall k :: 0 <= k < |cases| ==> RawValue(cases[k]) != s
  {
    if cases == [] then None
    else if RawValue(cases[0]) == s then Some(cases[0])
    else FindRaw(s, cases[1..])
  }

  /** `OSSVoiceEnum(rawValue:)`: the case with the given tag, if there is one. */
  function FromRaw(s: string): (r: Option<OSSVoiceEnum>)
    ensures r.Some? ==> RawValue(r.value) == s
    ensures r.None? <==> forall v :: RawValue(v) != s
  {
    var r := FindRaw(s, AllCases);
    assert r.None? ==> forall v :: RawValue(v) != s by {
      if r.None? {
        forall v
          ensures RawValue(v) != s
        {
          AllCasesComplete(v);
          var k :| 0 <= k < |AllCases| && AllCases[k] == v;
        }
      }
    }
    r
  }

  lemma {:induction false} FindRawFirstMatch(s: string, cases: seq<OSSVoiceEnum>, k: nat)
    requires k < |cases| && RawValue(cases[k]) == s
    requires forall m :: 0 <= m < k ==> RawValue(cases[m]) != s
    ensures FindRaw(s, cases) == Some(cases[k])
  {
    if k > 0 {
      FindRawFirstMatch(s, cases[1..], k - 1);
    }
  }

  /** Converting a case to its raw value and back yields the same case. */
  lemma RawRoundTrip(v: OSSVoiceEnum)
    ensures FromRaw(RawValue(v)) == Some(v)
  {
    AllCasesComplete(v);
    AllCasesDistinct();
    var k :| 0 <= k < |AllCases| && AllCases[k] == v;
    FindRawFirstMatch(RawValue(v), AllCases, k);
  }

  /** `FromRaw` and `RawValue` are inverse in both directions. */
  lemma FromRawInverse(s: string, v: OSSVoiceEnum)
    ensures FromRaw(s) == Some(v) <==> RawValue(v) == s
  {
    RawRoundTrip(v);
  }

  /** `title`: the name of the case itself. */
  function Title(v: OSSVoiceEnum): (t: string)
    ensures |t| > 0 && 'A' <= t[0] <= 'Z'
  {
    match v
    case SaudiArabian => "SaudiArabian"
    case Czech => "Czech"
    case Danish => "Danish"
    case German => "German"
    case Greek => "Greek"
    case Australian => "Australian"
    case English => "English"
    case IrishEnglish => "IrishEnglish"
    case UnitedStatesEnglish => "UnitedStatesEnglish"
    case SouthAfricanEnglish => "SouthAfricanEnglish"
    case Spanish => "Spanish"
    case Mexican => "Mexican"
    case Finnish => "Finnish"
    case CanadianFrench => "CanadianFrench"
    case French => "French"
    case Hebrew => "Hebrew"
    case Hindi => "Hindi"
    case Hungarian => "Hungarian"
    case Indonesian => "Indonesian"
    case Italian => "Italian"
    case Japanese => "Japanese"
    case Korean => "Korean"
    case DutchBelgium => "DutchBelgium"
    case DutchNetherlands => "DutchNetherlands"
    case Norwegian => "Norwegian"
    case Polish => "Polish"
    case Brazilian => "Brazilian"
    case Portuguese => "Portuguese"
    case Romanian => "Romanian"
    case Russian => "Russian"
    case Slovakian => "Slovakian"
    case Swedish => "Swedish"
    case Thai => "Thai"
    case Turkish => "Turkish"
    case Chinese => "Chinese"
    case ChineseHongKong => "ChineseHongKong"
    case Taiwanese => "Taiwanese"
  }

  /** A voice installed on the device, as the platform reports it. */
  datatype PlatformVoice = PlatformVoice(name: string, identifier: string)

  /** `OSSVoiceInfo`: every field is optional. */
  datatype OSSVoiceInfo = OSSVoiceInfo(
    name: Option<string>,
    language: Option<string>,
    languageCode: Option<string>,
    identifier: Option<string>)

  const NoDetails := OSSVoiceInfo(None, None, None, None)

  /**
    `getDetails`: `installed` maps a language tag to the voice the platform
    returns for it; `hasVoiceIdentity` tells whether the platform reports a
    voice's name and identifier (iOS 9 and later).
   */
  function GetDetails(v: OSSVoiceEnum, installed: map<string, PlatformVoice>, hasVoiceIdentity: bool): (info: OSSVoiceInfo)
    ensures RawValue(v) in installed ==>
      info.languageCode == Some(RawValue(v)) && info.language == Some(Title(v))
    ensures RawValue(v) in installed && hasVoiceIdentity ==>
      info.name == Some(installed[RawValue(v)].name) && info.identifier == Some(installed[RawValue(v)].identifier)
    ensures RawValue(v) in installed && !hasVoiceIdentity ==>
      info.name == None && info.identifier == Some("unavailable")
    ensures RawValue(v) !in installed ==> info == NoDetails
    ensures info.languageCode.Some? ==> FromRaw(info.languageCode.value) == Some(v)
  {
    RawRoundTrip(v);
    var tag := RawValue(v);
    if tag in installed then
      var voice := installed[tag];
      if hasVoiceIdentity then
        OSSVoiceInfo(Some(voice.name), Some(Title(v)), Some(tag), Some(voice.identifier))
      else
        OSSVoiceInfo(None, Some(Title(v)), Some(tag), Some("unavailable"))
    else
      NoDetails
  }

  /** `AVSpeechSynthesisVoiceQuality`. */
  datatype VoiceQuality = Default | Enhanced | Premium

  /** A voice whose language and quality can be changed after creation. */
  class OSSVoice {
    var voiceQuality: VoiceQuality
    var voiceLanguage: string
    var voiceTypeValue: OSSVoiceEnum

    /** The state `init()` produces. */
    ghost predicate IsDefaultVoice()
      reads this
    {
      voiceTypeValue == UnitedStatesEnglish && voiceLanguage == "en-US" && voiceQuality == Default
    }

    /** The language string is the tag of the voice type. */
    predicate LanguageMatchesType()
      reads this
    {
      voiceLanguage == RawValue(voiceTypeValue)
    }

    /** `init()`, which runs `commonInit`. */
    constructor ()
      ensures VoiceType() == UnitedStatesEnglish && Language() == "en-US" && Quality() == Default
      ensures IsDefaultVoice() && LanguageMatchesType()
    {
      voiceTypeValue := UnitedStatesEnglish;
      voiceLanguage := RawValue(UnitedStatesEnglish);
      voiceQuality := Default;
    }

    /** `init?(quality:language:)`, which never fails. */
    constructor WithQuality(quality: VoiceQuality, language: OSSVoiceEnum)
      ensures VoiceType() == language && Language() == RawValue(language) && Quality() == quality
      ensures LanguageMatchesType()
    {
      voiceTypeValue := language;
      voiceLanguage := RawValue(language);
      voiceQuality := quality;
    }

    function Quality(): VoiceQuality
      reads this
    {
      voiceQuality
    }

    method SetQuality(quality: VoiceQuality)
      modifies this
      ensures Quality() == quality
      ensures Language() == old(Language()) && VoiceType() == old(VoiceType())
    {
      voiceQuality := quality;
    }

    function Language(): string
      reads this
    {
      voiceLanguage
    }

    /** Setting the language does not change the voice type. */
    method SetLanguage(language: string)
      modifies this
      ensures Language() == language
      ensures Quality() == old(Quality()) && VoiceType() == old(VoiceType())
      ensures LanguageMatchesType() <==> language == RawValue(VoiceType())
    {
      voiceLanguage := language;
    }

    function VoiceType(): OSSVoiceEnum
      reads this
    {
      voiceTypeValue
    }
  }

  /**
    A default voice whose language is then set to Indonesian keeps the
    voice type United States English.
   */
  method LanguageSetterKeepsVoiceType() returns (voiceType: OSSVoiceEnum, language: string, quality: VoiceQuality)
    ensures voiceType == UnitedStatesEnglish && voiceType != Indonesian
    ensures language == RawValue(Indonesian) && quality == Enhanced
  {
    var voice := new OSSVoice();
    voice.SetLanguage(RawValue(Indonesian));
    voice.SetQuality(Enhanced);
    voiceType, language, quality := voice.VoiceType(), voice.Language(), voice.Quality();
  }
}
