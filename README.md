# OSSSpeechKit, modelled in Dafny

OSSSpeechKit is a Swift library that wraps Apple's speech frameworks. It has:
- a coordinator, `OSSSpeech`, that turns text into synthesizer requests;
- an utterance, `OSSUtterance`, that stores the text to speak as a plain string and as an attributed string;
- a catalogue of 37 voices, `OSSVoiceEnum`, and a configurable voice, `OSSVoice`;
- a localized-string helper, `OSSSpeechUtility`;
- two audio visualizer views, which draw bars around a circle or in a row.

This project models the decision logic of these parts and proves what each one promises.

Modules, one per source file, plus two shared modules (`Waveform` and `Optional`):

| module | file | models |
|---|---|---|
| `Voices` | `voice.dfy` | `OSSVoice.swift`: the 37 language tags, the raw-value conversion, `title`, `getDetails`, and the `OSSVoice` class. |
| `Utterances` | `utterance.dfy` | `OSSUtterance.swift`: the two stored strings, the `speechString` getter that falls back from one to the other, the initialisers and their defaults. |
| `Speech` | `speech.dfy` | `OSSSpeech.swift`: `speakText`, `speakAttributedText`, `voiceIsValid`, `utteranceIsValid` and `speak`. |
| `SpeechUtility` | `speech_utility.dfy` | `OSSSpeechUtility.swift`: `stringsTableName`, and the fallback chain of `getString` over the application's and the SDK's string tables. |
| `Waveform` | `waveform.dfy` | The loop both views use to fill the wave form with `[5, 10, 15, 10, 5, 1]`, repeating. |
| `CircularVisualizer` | `visualizer_circular_view.dfy` | `OSSVisualizerCircularView.swift`: the bar-type table, bar angles, the build-once guard, and the index checks of the animation loops. |
| `BarVisualizer` | `visualizer_view.dfy` | `OSSVisualizerView.swift`: the once-only layout, `addEqualizerBars`, and the animation loops. |
| `Optional` | `optional.dfy` | The `Option` type. |

Modelling choices:
- The synthesizer is the field `OSSSpeech.spoken`, a log of the requests handed to it.
- Swift runtime traps are outcomes, not preconditions, so that the model shows when they happen. The traps are:
  - the force-unwrap `self.voice!` in `speak`, which becomes `SpeakOutcome.Trapped`;
  - a range `0..<n` or `0...n` with negative `n`, which becomes `Outcome.Trap`;
  - an array index past the end, which also becomes `Outcome.Trap`.
- Platform facts the code queries are parameters:
  - `alexInstalled` says whether `AVSpeechSynthesisVoice(identifier:)` finds the Alex voice.
  - `installed` is the map that `AVSpeechSynthesisVoice(language:)` consults.
  - `hasVoiceIdentity` is the `#available(iOS 9.0, *)` check.
  - `sdkBundle` is the result of `Bundle.getResourcesBundle()`.
- Three platform operations are definitions, with nothing to prove about them:
  - `NSLocalizedString` is `LocalizedString`. It reads the named table, or the default table "Localizable" when the name is empty. It returns that table's entry for the key if there is one; otherwise `value` if that is non-empty, else the key.
  - `NSAttributedString(string:)` is `Unattributed`: the text with no attribute runs.
  - `AVSpeechUtterance(string:)` with its prosody copied is `OSSSpeech.RequestFor`: the utterance's `speechString`, rate, pitch and volume, spoken by the given voice.
- Bar heights are `Resting` or `Animated`. Their floating-point values are not modelled.

Two behaviours of the code are worth knowing:
- **The unwrap in `speak` can trap.** Take a coordinator with no voice, on a platform where `AVSpeechSynthesisVoice(identifier:)` finds the Alex voice (the model's `alexInstalled`; `OSSSpeechKit/Classes/OSSUtterance.swift:85`). An utterance it creates carries that voice, so `voiceIsValid` succeeds and no default voice is assigned. Then `self.voice!` traps. Without the Alex voice, the utterance has no voice and the default voice is used instead. `Speech.SpeakDecision` states exactly when this happens, and `Speech.SpeakTextWithoutVoiceTraps` replays `testSpeechNoText` up to its call at `Example/Tests/OSSSpeechTests.swift:64`, on a fresh coordinator (the two calls before it change nothing).
- **`speakAttributedText` can speak the old text.** When it reuses an utterance that already holds a plain string, it speaks that old plain string, because the `speechString` getter prefers it (`Speech.AttributedTextSpeaksEarlierPlainString`).

Where the tests and the code disagree, the model follows the code. `Example/Tests/OSSSpeechTests.swift:112` expects `voiceType` to follow a change of `language`. In the code, `voiceType` never changes after initialisation (`Voices.LanguageSetterKeepsVoiceType`).

## Model

| member | source | states |
|---|---|---|
| Voices.RawValue | OSSSpeechKit/Classes/OSSVoice.swift:31-67 | Every raw value is two lower-case letters, a hyphen, then two upper-case letters (the shape of a BCP 47 language-region tag). |
| Voices.AllCasesComplete | OSSSpeechKit/Classes/OSSVoice.swift:30-67 | Every case of the enum occurs in `allCases`. |
| Voices.AllCasesAscending | OSSSpeechKit/Classes/OSSVoice.swift:30-67 | `allCases` has 37 entries, and their raw values strictly ascend in declaration order. |
| Voices.AllCasesDistinct | OSSSpeechKit/Classes/OSSVoice.swift:30-67 | The 37 raw values are pairwise distinct. |
| Voices.FindRaw | OSSSpeechKit/Classes/OSSVoice.swift:30-67 | A linear search over a list of cases. It finds a case whose raw value is the string, or reports that no case in the list has it. |
| Voices.FromRaw | OSSSpeechKit/Classes/OSSVoice.swift:30-67 | `init?(rawValue:)`. Any case it returns has the given raw value. It returns nil exactly when no case has that raw value, comparing code points (see "## Left out"). |
| Voices.RawRoundTrip | OSSSpeechKit/Classes/OSSVoice.swift:30-67 | Converting a case to its raw value and back gives the same case. |
| Voices.FromRawInverse | OSSSpeechKit/Classes/OSSVoice.swift:30-67 | `init?(rawValue: s)` returns `v` if and only if `v.rawValue == s`, comparing code points (see "## Left out"). |
| Voices.Title | OSSSpeechKit/Classes/OSSVoice.swift:88-90 | `title` is a non-empty name that starts with a capital letter. |
| Voices.GetDetails | OSSSpeechKit/Classes/OSSVoice.swift:70-85 | With a voice installed, `languageCode` is the raw value and `language` is the title. `name` and `identifier` come from the platform voice; before iOS 9, `name` is nil and `identifier` is "unavailable". Without an installed voice, every field is nil. The language code converts back to the same case. |
| Voices.OSSVoice.constructor | OSSSpeechKit/Classes/OSSVoice.swift:251-256 | `init()` gives voice type United States English, language "en-US" and quality default. |
| Voices.OSSVoice.WithQuality | OSSSpeechKit/Classes/OSSVoice.swift:233-238 | `init?(quality:language:)` never fails. It sets the voice type, the language to the type's raw value, and the quality. |
| Voices.OSSVoice.SetQuality | OSSSpeechKit/Classes/OSSVoice.swift:195-202 | The quality setter round-trips and leaves the language and voice type unchanged. |
| Voices.OSSVoice.SetLanguage | OSSSpeechKit/Classes/OSSVoice.swift:205-218 | The language setter round-trips and never changes the voice type. Language and voice type stay consistent only when the new language is the type's raw value. |
| Voices.LanguageSetterKeepsVoiceType | Example/Tests/OSSSpeechTests.swift:96-113 | A default voice whose language is set to "id-ID" keeps voice type United States English, not Indonesian. |
| Utterances.SpokenText | OSSSpeechKit/Classes/OSSUtterance.swift:26-34 | The `speechString` getter returns the plain string when it is non-empty, otherwise the attributed text. It is empty exactly when both are empty. |
| Utterances.OSSUtterance.FromString | OSSSpeechKit/Classes/OSSUtterance.swift:60-65 | `init(string:)`: `speechString` is the string and the attributed string is its unattributed copy. The `commonInit` defaults are rate 0.5, pitch 1.0, volume 1.0, and the Alex voice when the platform has it. |
| Utterances.OSSUtterance.FromAttributedString | OSSSpeechKit/Classes/OSSUtterance.swift:68-73 | `init(attributedString:)`: the attributed string is the argument and `speechString` is its text, with the same defaults. |
| Utterances.OSSUtterance.SetSpeechString | OSSSpeechKit/Classes/OSSUtterance.swift:35-37 | The setter round-trips for non-empty strings. After setting "", the getter returns the attributed text. The attributed string and the prosody settings are unchanged. |
| Utterances.OSSUtterance.SetAttributedSpeechString | OSSSpeechKit/Classes/OSSUtterance.swift:44-51 | The attributed setter round-trips. The plain string is unchanged, and so is `speechString` whenever the plain string is non-empty. |
| Speech.SpeakDecision | OSSSpeechKit/Classes/OSSSpeech.swift:85-129 | How `speak` ends. It traps exactly when there is no voice, the utterance carries a voice of its own, and the speech string is non-empty. It submits exactly when an utterance with a non-empty string exists and a voice is set or defaulted. |
| Speech.OSSSpeech.constructor | OSSSpeechKit/Classes/OSSSpeech.swift:30-32 | A new coordinator has no voice, no utterance and an empty request log. |
| Speech.OSSSpeech.VoiceIsValid | OSSSpeechKit/Classes/OSSSpeech.swift:85-106 | `voiceIsValid`, with its nested guards and its call to `utteranceIsValid` (whether an utterance is set). It equals the flat condition `VoiceCheck`: a voice is set, or a set utterance carries a voice of its own. A set voice always passes; without an utterance, only a set voice does. |
| Speech.OSSSpeech.Speak | OSSSpeechKit/Classes/OSSSpeech.swift:108-129 | The outcome is `SpeakDecision`. A default voice is assigned only when `voiceIsValid` fails, and a set voice is never replaced. The log grows by exactly the one request, and only on submission. |
| Speech.OSSSpeech.SpeakText | OSSSpeechKit/Classes/OSSSpeech.swift:48-62 | Empty text changes nothing. Otherwise the utterance's `speechString` becomes the text. An existing utterance is reused with its prosody and voice kept; a new one gets the `init(string:)` defaults. Then exactly one request is submitted, unless the unwrap traps. |
| Speech.OSSSpeech.SpeakAttributedText | OSSSpeechKit/Classes/OSSSpeech.swift:67-81 | Empty text changes nothing. Otherwise the attributed text is stored, but the spoken string is an earlier non-empty plain string when the utterance is reused. The voice and submission rules are the same as for `speakText`. |
| Speech.SpeakTextWithoutVoiceTraps | Example/Tests/OSSSpeechTests.swift:60-64 | With no voice and the Alex voice installed, `speakText("Test One")` traps at the unwrap and submits nothing. |
| Speech.SpeakTextWithoutAnyVoiceUsesDefault | OSSSpeechKit/Classes/OSSSpeech.swift:108-111 | Without the Alex voice, the same call assigns the default "en-US" voice and submits "Test One". |
| Speech.ReusedUtteranceKeepsProsody | Example/Tests/OSSSpeechTests.swift:96-111 | Speaking through a prepared utterance keeps it, with rate 0.5, volume 0.5 and pitch 1.2. The request copies those values. |
| Speech.AttributedTextSpeaksEarlierPlainString | OSSSpeechKit/Classes/OSSSpeech.swift:77-80 | After `speakText("Old")`, `speakAttributedText("New")` submits "Old". |
| SpeechUtility.FirstUsable | OSSSpeechKit/Classes/OSSSpeechUtility.swift:54-71 | The fallback chain returns the first candidate that is non-empty and differs from the key, or the fallback when there is none. |
| SpeechUtility.OSSSpeechUtility.constructor | OSSSpeechKit/Classes/OSSSpeechUtility.swift:30 | `stringsTableName` starts as "Localizable". |
| SpeechUtility.OSSSpeechUtility.SetStringsTableName | OSSSpeechKit/Classes/OSSSpeechUtility.swift:33-40 | The `stringsTableName` setter round-trips. |
| SpeechUtility.OSSSpeechUtility.GetString | OSSSpeechKit/Classes/OSSSpeechUtility.swift:54-71 | An empty key gives the sentinel. A usable app value wins. With no SDK bundle, the result is the default value. The result equals the key only when the default value does, and it is non-empty when the default value is. |
| SpeechUtility.OSSSpeechUtility.GetStringIsFallbackChain | OSSSpeechKit/Classes/OSSSpeechUtility.swift:54-71 | For a non-empty key, `getString` is the first usable value among the app table and, if the bundle exists, the SDK table, falling back to the default value. |
| SpeechUtility.EmptyTableNameReadsDefaultTable | OSSSpeechKit/Classes/OSSSpeechUtility.swift:33-60 | After `stringsTableName` is set to "", the app lookup reads the default table "Localizable". Its value "v" for key "k" is returned instead of the default value "d". |
| Waveform.FillWaveForm | OSSSpeechKit/Classes/OSSVisualizerView.swift:75-83 | The fill loop with its wrapping counter yields `count` entries. Entry `i` is `[5,10,15,10,5,1][i mod 6]`, always between 1 and 15. |
| CircularVisualizer.BarCount | OSSSpeechKit/Classes/OSSVisualizerCircularView.swift:45-60 | Every bar count is between 30 and 180 and divides 360. `custom` gives 30. |
| CircularVisualizer.BarWidth | OSSSpeechKit/Classes/OSSVisualizerCircularView.swift:63-78 | Every bar width is positive and at most 4. |
| CircularVisualizer.BarWidthShrinksAsCountGrows | OSSSpeechKit/Classes/OSSVisualizerCircularView.swift:33-42 | Among the fixed types, one type has more bars than another exactly when its bars are narrower. |
| CircularVisualizer.BarAngle | OSSSpeechKit/Classes/OSSVisualizerCircularView.swift:187 | Bar 0 sits at -90 degrees, the top of the circle. Every bar `0..<n` lies within one turn from there, in `[-90, 270)`. |
| CircularVisualizer.BarAngleWithinTurn | OSSSpeechKit/Classes/OSSVisualizerCircularView.swift:186-187 | For the bars `0..<n`, `(360 / n) * i` is at least 0 and below 360, including when `n` exceeds 360 and the step is 0. |
| CircularVisualizer.BarRotation | OSSSpeechKit/Classes/OSSVisualizerCircularView.swift:195 | A bar's rotation is its angle plus 270 degrees, so each bar points away from the centre. For the bars `0..<n` it lies in `[180, 540)`. |
| CircularVisualizer.BarAngleSpacing | OSSSpeechKit/Classes/OSSVisualizerCircularView.swift:186-187 | For any positive count, neighbouring bar angles differ by `360 / n`. |
| CircularVisualizer.BarAnglesCloseCircle | OSSSpeechKit/Classes/OSSVisualizerCircularView.swift:186-187 | When the count divides 360, bar `n` would land a full turn after bar 0. |
| CircularVisualizer.BarAnglesLeaveGap | OSSSpeechKit/Classes/OSSVisualizerCircularView.swift:186-187 | When the count does not divide 360, the bars stop short of a full turn. |
| CircularVisualizer.BarTypesCloseCircle | OSSSpeechKit/Classes/OSSVisualizerCircularView.swift:28 | Every bar type's count closes the circle. |
| CircularVisualizer.OSSVisualizerCircularView.constructor | OSSSpeechKit/Classes/OSSVisualizerCircularView.swift:100-125 | A new view has the medium count and width, type `custom`, and no bars. |
| CircularVisualizer.OSSVisualizerCircularView.LayoutSubviews | OSSSpeechKit/Classes/OSSVisualizerCircularView.swift:153-160 | Unless the type is `custom`, it adopts the type's count and width, then draws. |
| CircularVisualizer.OSSVisualizerCircularView.DrawVisualizer | OSSSpeechKit/Classes/OSSVisualizerCircularView.swift:166-213 | Bars are built only when there are none. Then there are `n` bars with their angles, points, rotations and tags, and a wave form of `n` entries. A negative `n` traps. |
| CircularVisualizer.OSSVisualizerCircularView.AnimateAudioVisualizer | OSSSpeechKit/Classes/OSSVisualizerCircularView.swift:223-255 | The loop completes exactly when `barsViewsCount` is within both arrays. It then raises bars `0..<n` and changes nothing else. |
| CircularVisualizer.OSSVisualizerCircularView.EndAnimatingAudioVisualizer | OSSSpeechKit/Classes/OSSVisualizerCircularView.swift:257-269 | The loop completes exactly when `barsViewsCount` is within the bars. It then rests bars `0..<n` and keeps the array lengths. |
| CircularVisualizer.LayoutOnceThenAnimate | OSSSpeechKit/Classes/OSSVisualizerCircularView.swift:153-160 | After one layout with any type, animating and ending stay in range. The number of bars is the type's count, or 45 for `custom`. |
| CircularVisualizer.ChangingBarTypeAfterLayoutTraps | OSSSpeechKit/Classes/OSSVisualizerCircularView.swift:155-179 | Switching to `extreme` after the first layout raises the count to 180 over 45 existing bars, and animating traps. |
| BarVisualizer.OSSVisualizerView.constructor | OSSSpeechKit/Classes/OSSVisualizerView.swift:28-31 | `init()` has a zero frame, 10 bars to come and nothing laid out. |
| BarVisualizer.OSSVisualizerView.WithFrame | OSSSpeechKit/Classes/OSSVisualizerView.swift:33-36 | `init(frame:)` keeps the frame, with 10 bars to come and nothing laid out. |
| BarVisualizer.OSSVisualizerView.LayoutSubviews | OSSSpeechKit/Classes/OSSVisualizerView.swift:48-54 | Bars are added once only, and only with a non-zero frame. A second call changes nothing. |
| BarVisualizer.OSSVisualizerView.AddEqualizerBars | OSSSpeechKit/Classes/OSSVisualizerView.swift:58-84 | Both arrays are emptied and then refilled. There are `barsViewsCount + 1` bars, and the wave form has the same number of entries. A negative count traps. |
| BarVisualizer.OSSVisualizerView.AnimateAudioVisualizer | OSSSpeechKit/Classes/OSSVisualizerView.swift:88-107 | The loop over `0...n` completes exactly when `n` indexes both arrays. It then raises those bars at full opacity and changes nothing else. |
| BarVisualizer.OSSVisualizerView.EndAnimatingAudioVisualizer | OSSSpeechKit/Classes/OSSVisualizerView.swift:109-121 | The loop completes exactly when `n` indexes the bars. It then rests bars `0...n` at half opacity and keeps the array lengths. |
| BarVisualizer.AnimateBeforeLayoutTraps | OSSSpeechKit/Classes/OSSVisualizerView.swift:88-94 | A view that was never laid out has no bars, so animating traps. |
| BarVisualizer.LayoutThenAnimate | OSSSpeechKit/Classes/OSSVisualizerView.swift:48-84 | One layout with a non-zero frame gives 11 bars, and both loops stay in range. |
| BarVisualizer.GrowingCountAfterLayoutTraps | OSSSpeechKit/Classes/OSSVisualizerView.swift:48-54 | Raising the count after layout does not rebuild the bars, and animating traps. |

## Left out

- Synthesis, recognition and playback in AVFoundation are foreign calls. The synthesizer is a log of requests; voice availability is the parameters `alexInstalled` and `installed`.
- `AVSpeechUtteranceDefaultSpeechRate` is a platform constant whose value is not in the source. The model takes it as 0.5.
- `Voices.Title`: states only that the title is a non-empty capitalised name. That it equals the case's name holds by its definition, not by a proof about distinct names.
- `demoMessage` is a per-language string table with no logic; its text is not modelled.
- `debugLog` only prints.
- Bundle lookup (`Bundle.getResourcesBundle`, `Bundle.main`) is file I/O. Bundles are maps of string tables, and the SDK bundle is an optional parameter.
- `OSSSpeechKit/Classes/OSSVisualizerHelper.swift` is floating-point signal processing (vDSP) and is not part of this model.
- Visualizer geometry, colours, corner radii, image views, float heights, `arc4random_uniform` and animation timing are presentation work on floating point and randomness. Bars record only their tag, rotation angle, rest or raised height, and opacity.
- `BarVisualizer.OSSVisualizerView.AddEqualizerBars`: with `barsViewsCount == 0`, the source divides the frame width by zero in floating point (`OSSSpeechKit/Classes/OSSVisualizerView.swift:62-64`) and gives the bar a non-finite frame. The model records only the integer bookkeeping of that case (one bar, one wave entry, outcome `Ok`); what UIKit does with such a frame is not modelled.
- `DispatchQueue.main.async` in the animation methods is modelled as running at once. The delay before the loop runs is not captured.
- UIKit views are values in sequences, not shared references. `addSubview` and view aliasing are not captured.
- `init?(coder:)` on the views and voice, and the singleton `OSSSpeech.shared`, are left out. The former only call `fatalError` or UIKit; the model builds coordinators with a constructor.
- Recording, authorization status and the speech delegate are used by the tests but are not defined in the modelled files.
- The example application, UI tests and package manifest are not part of the library's logic.
- `SpeechUtility.Usable`, `Speech.OSSSpeech.SpeakText` and `Speech.OSSSpeech.SpeakAttributedText`: Swift compares `String` values by Unicode canonical equivalence. This applies to the comparisons at `OSSSpeechKit/Classes/OSSSpeech.swift:58`, `OSSSpeechKit/Classes/OSSSpeech.swift:77`, `OSSSpeechKit/Classes/OSSSpeechUtility.swift:59` and `OSSSpeechKit/Classes/OSSSpeechUtility.swift:67`. The model compares sequences of characters exactly. Two canonically equivalent but differently encoded strings, such as "e" followed by a combining acute accent and the precomposed "é", are therefore unequal in the model. So `getString` may return a value Swift would reject as equal to the key, and `speakText` overwrites a stored string that Swift would keep.
- `Voices.FromRaw` and `Voices.FromRawInverse`: the `init?(rawValue:)` that Swift synthesises for the `String`-backed enum at `OSSSpeechKit/Classes/OSSVoice.swift:30` matches with `String ==`, that is, by Unicode canonical equivalence. The model matches code points exactly. U+212A KELVIN SIGN is canonically equivalent to "K", so Swift maps "da-D" followed by U+212A to `.Danish`, while `FromRaw` returns None; the same holds for the "K" in "ko-KR", "sk-SK" and "zh-HK". Both contracts, "nil exactly when no case has that raw value" and "returns `v` if and only if `v.rawValue == s`", hold under code-point equality only. `RawRoundTrip` is exact in Swift too, because every tag is ASCII.
- Swift `Int` is 64-bit. The model uses unbounded integers, because no modelled computation comes near that width.
