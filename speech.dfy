/**
 * The speech hook: the language-to-locale table, voice choice by primary
 * subtag, and the `isListening` / `isSpeaking` flags that the browser's
 * recognition and synthesis events drive. Each platform event is a method.
 */
module Speech {
  import opened Basics
  import opened Text
  import LanguageContext

  /** `languageToSpeechCode`. */
  const SpeechCodes: map<string, string> := map[
    "en" := "en-IN", "hi" := "hi-IN", "te" := "te-IN", "ta" := "ta-IN",
    "kn" := "kn-IN", "ml" := "ml-IN", "mr" := "mr-IN", "gu" := "gu-IN",
    "bn" := "bn-IN", "pa" := "pa-IN", "or" := "or-IN"
  ]

  const DefaultSpeechLang: string := "en-IN"

  /** `speechLang`: the table's locale for the language, or "en-IN". */
  function SpeechLang(language: string): (r: string)
    ensures LanguageContext.ParseCode(language).Some? ==> r == language + "-IN"
    ensures LanguageContext.ParseCode(language).None? ==> r == DefaultSpeechLang
  {
    if language in SpeechCodes && SpeechCodes[language] != "" then SpeechCodes[language]
    else DefaultSpeechLang
  }

  /** Every listed language, and only those, gets its own locale. */
  lemma SpeechLangCoversListed(language: string)
    ensures LanguageContext.IsListed(language) ==> SpeechLang(language) == language + "-IN"
    ensures !LanguageContext.IsListed(language) ==> SpeechLang(language) == DefaultSpeechLang
  {
    LanguageContext.ListedIffParses(language);
  }

  /** `tag.split('-')[0]`: the text before the first hyphen. */
  function PrimarySubtag(tag: string): (r: string)
    ensures r <= tag
    ensures '-' !in r
    ensures |r| < |tag| ==> tag[|r|] == '-'
  {
    if tag == [] || tag[0] == '-' then [] else [tag[0]] + PrimarySubtag(tag[1..])
  }

  /** The primary subtag of a listed language's locale is the language code itself. */
  lemma PrimarySubtagOfSpeechLang(l: LanguageContext.LanguageCode)
    ensures PrimarySubtag(SpeechLang(LanguageContext.Code(l))) == LanguageContext.Code(l)
  {
  }

  datatype Voice = Voice(name: string, lang: string)

  /** Index of the first voice whose `lang` starts with `prefix` (`voices.find`). */
  function FirstVoiceWithPrefix(voices: seq<Voice>, prefix: string): (r: Option<nat>)
    ensures r.Some? ==> r.value < |voices| && StartsWith(voices[r.value].lang, prefix)
    ensures r.Some? ==> forall j :: 0 <= j < r.value ==> !StartsWith(voices[j].lang, prefix)
    ensures r.None? ==> forall j :: 0 <= j < |voices| ==> !StartsWith(voices[j].lang, prefix)
  {
    if voices == [] then None
    else if StartsWith(voices[0].lang, prefix) then Some(0)
    else match FirstVoiceWithPrefix(voices[1..], prefix)
      case None => None
      case Some(k) => Some(k + 1)
  }

  /** The voice `speak` sets: the first whose language shares the locale's primary subtag. */
  function ChooseVoice(voices: seq<Voice>, speechLang: string): (r: Option<Voice>)
    ensures r.Some? ==> r.value in voices && StartsWith(r.value.lang, PrimarySubtag(speechLang))
    ensures r.Some? ==> exists k :: 0 <= k < |voices| && voices[k] == r.value &&
                          forall j :: 0 <= j < k ==> !StartsWith(voices[j].lang, PrimarySubtag(speechLang))
    ensures r.None? ==> forall v :: v in voices ==> !StartsWith(v.lang, PrimarySubtag(speechLang))
  {
    match FirstVoiceWithPrefix(voices, PrimarySubtag(speechLang))
    case None => None
    case Some(k) => Some(voices[k])
  }

  const UtteranceRate: real := 0.9
  const UtterancePitch: real := 1.0
  const NotSupportedMessage: string := "Speech recognition not supported in this browser"

  /** A recognizer as `startListening` configures it; `stopped` records a call to `stop()`. */
  datatype Recognizer = Recognizer(
    lang: string, interimResults: bool, maxAlternatives: nat, continuous: bool,
    hasOnError: bool, stopped: bool)

  /** An utterance as `speak` configures it; `hasOnEnd` says whether an `onEnd` callback was given. */
  datatype Utterance = Utterance(
    text: string, lang: string, rate: real, pitch: real, voice: Option<Voice>, hasOnEnd: bool)

  /** The callback a recognition step invokes, if any. */
  datatype Notice = NoCallback | ResultCallback(transcript: string) | ErrorCallback(error: string)

  /** One instance of the hook, over a platform that may lack either capability. */
  class SpeechHook {
    const recognitionSupported: bool
    const synthesisSupported: bool
    var isListening: bool
    var isSpeaking: bool
    /** `recognitionRef.current`. */
    var recognizer: Option<Recognizer>
    /** The synthesis queue of the platform. */
    var queue: seq<Utterance>

    /** Only a created recognizer can have started listening. */
    predicate Valid()
      reads this
    {
      isListening ==> recognizer.Some?
    }

    constructor (recognitionSupported: bool, synthesisSupported: bool)
      ensures Valid()
      ensures this.recognitionSupported == recognitionSupported
      ensures this.synthesisSupported == synthesisSupported
      ensures !isListening && !isSpeaking && recognizer.None? && queue == []
    {
      this.recognitionSupported := recognitionSupported;
      this.synthesisSupported := synthesisSupported;
      isListening, isSpeaking := false, false;
      recognizer, queue := None, [];
    }

    /**
     * `startListening`: without a recognition API, report the not-supported
     * message to `onError` (when given) and start nothing; otherwise create
     * and start a single-result recognizer in the language's locale.
     */
    method StartListening(language: string, hasOnError: bool) returns (notice: Notice)
      requires Valid()
      modifies this`recognizer
      ensures Valid()
      ensures !recognitionSupported ==> recognizer == old(recognizer)
      ensures !recognitionSupported ==>
                notice == if hasOnError then ErrorCallback(NotSupportedMessage) else NoCallback
      ensures recognitionSupported ==>
                notice == NoCallback &&
                recognizer == Some(Recognizer(SpeechLang(language), false, 1, false, hasOnError, false))
    {
      if !recognitionSupported {
        notice := if hasOnError then ErrorCallback(NotSupportedMessage) else NoCallback;
        return;
      }
      notice := NoCallback;
      recognizer := Some(Recognizer(SpeechLang(language), false, 1, false, hasOnError, false));
    }

    /** The recognizer's `start` event. */
    method RecognitionStarted()
      requires Valid()
      requires recognizer.Some?
      modifies this`isListening
      ensures Valid()
      ensures isListening
    {
      isListening := true;
    }

    /** The recognizer's `result` event: hand the first transcript to `onResult`, then clear the flag. */
    method RecognitionResult(transcript: string) returns (notice: Notice)
      requires Valid()
      requires recognizer.Some?
      modifies this`isListening
      ensures Valid()
      ensures notice == ResultCallback(transcript)
      ensures !isListening
    {
      notice := ResultCallback(transcript);
      isListening := false;
    }

    /** The recognizer's `error` event: report to `onError` when given, then clear the flag. */
    method RecognitionError(error: string) returns (notice: Notice)
      requires Valid()
      requires recognizer.Some?
      modifies this`isListening
      ensures Valid()
      ensures notice == if recognizer.value.hasOnError then ErrorCallback(error) else NoCallback
      ensures !isListening
    {
      notice := if recognizer.value.hasOnError then ErrorCallback(error) else NoCallback;
      isListening := false;
    }

    /** The recognizer's `end` event. */
    method RecognitionEnded()
      requires Valid()
      requires recognizer.Some?
      modifies this`isListening
      ensures Valid()
      ensures !isListening
    {
      isListening := false;
    }

    /** `stopListening`: stop and clear the flag if a recognizer was ever created, else nothing. */
    method StopListening()
      requires Valid()
      modifies this`recognizer, this`isListening
      ensures Valid()
      ensures old(recognizer).None? ==> recognizer == old(recognizer) && isListening == old(isListening)
      ensures old(recognizer).Some? ==>
                recognizer == Some(old(recognizer).value.(stopped := true)) && !isListening
    {
      if recognizer.Some? {
        recognizer := Some(recognizer.value.(stopped := true));
        isListening := false;
      }
    }

    /**
     * `speak`: without synthesis, nothing; otherwise cancel everything queued
     * and queue one utterance in the language's locale, rate 0.9, pitch 1,
     * with the matching voice if there is one.
     */
    method Speak(text: string, language: string, voices: seq<Voice>, hasOnEnd: bool)
      requires Valid()
      modifies this`queue
      ensures Valid()
      ensures !synthesisSupported ==> queue == old(queue)
      ensures synthesisSupported ==>
                queue == [Utterance(text, SpeechLang(language), UtteranceRate, UtterancePitch,
                                    ChooseVoice(voices, SpeechLang(language)), hasOnEnd)]
    {
      if !synthesisSupported {
        return;
      }
      queue := [];
      var lang := SpeechLang(language);
      var u := Utterance(text, lang, UtteranceRate, UtterancePitch, ChooseVoice(voices, lang), hasOnEnd);
      queue := queue + [u];
    }

    /** The first queued utterance's `start` event. */
    method UtteranceStarted()
      requires Valid()
      requires queue != []
      modifies this`isSpeaking
      ensures Valid()
      ensures isSpeaking
    {
      isSpeaking := true;
    }

    /** The first queued utterance's `end` event: clear the flag, then call `onEnd` when given. */
    method UtteranceEnded() returns (callsOnEnd: bool)
      requires Valid()
      requires queue != []
      modifies this`isSpeaking, this`queue
      ensures Valid()
      ensures !isSpeaking
      ensures callsOnEnd == old(queue)[0].hasOnEnd
      ensures queue == old(queue)[1..]
    {
      isSpeaking := false;
      callsOnEnd := queue[0].hasOnEnd;
      queue := queue[1..];
    }

    /** The first queued utterance's `error` event: clear the flag; `onEnd` is not called. */
    method UtteranceFailed()
      requires Valid()
      requires queue != []
      modifies this`isSpeaking, this`queue
      ensures Valid()
      ensures !isSpeaking
      ensures queue == old(queue)[1..]
    {
      isSpeaking := false;
      queue := queue[1..];
    }

    /**
     * `stopSpeaking`: cancel and clear the flag. Without synthesis the call
     * to `speechSynthesis.cancel()` throws before the flag is cleared.
     */
    method StopSpeaking() returns (threw: bool)
      requires Valid()
      modifies this`queue, this`isSpeaking
      ensures Valid()
      ensures threw <==> !synthesisSupported
      ensures synthesisSupported ==> queue == [] && !isSpeaking
      ensures !synthesisSupported ==> queue == old(queue) && isSpeaking == old(isSpeaking)
    {
      threw := !synthesisSupported;
      if synthesisSupported {
        queue := [];
        isSpeaking := false;
      }
    }
  }
}
