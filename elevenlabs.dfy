/**
 * Speech: the voice chosen for a language and persona when reading a reply aloud, the
 * browser locale used for dictation, and the dictation object's `isListening` flag.
 */
module ElevenLabs {
  import opened Wrappers
  import opened Text
  import Language

  const Adam := "pNInz6obpgDQGcFmaJgB"
  const Rachel := "21m00Tcm4TlvDq8ikWAM"
  const Domi := "AZnzlk1XvdvUeBnXmlld"
  const Arnold := "VR6AewLTigWG4xSOukaG"
  const Bill := "pqHfZKP75CvOlQylNhV4"
  const Antoni := "ErXwobaYiN019PkySvjV"
  const Sam := "yoZ06aMxZJJ28mfd3POQ"

  /** `VOICE_CONFIGS[language]?.[persona]`: only English has an authoritative voice. */
  function ConfiguredVoice(language: string, persona: string): Option<string> {
    if language == "en" then
      (if persona == "professional" then Some(Adam)
       else if persona == "friendly" then Some(Rachel)
       else if persona == "authoritative" then Some(Domi)
       else None)
    else if language == "es" then
      (if persona == "professional" then Some(Arnold) else if persona == "friendly" then Some(Bill) else None)
    else if language == "fr" then
      (if persona == "professional" then Some(Antoni) else if persona == "friendly" then Some(Arnold) else None)
    else if language == "de" then
      (if persona == "professional" then Some(Antoni) else if persona == "friendly" then Some(Adam) else None)
    else if language == "pt" then
      (if persona == "professional" then Some(Sam) else if persona == "friendly" then Some(Domi) else None)
    else if language == "hi" then
      (if persona == "professional" then Some(Adam) else if persona == "friendly" then Some(Rachel) else None)
    else None
  }

  /** The voice `textToSpeech` sends to: the configured one, else English professional. */
  function VoiceId(language: string, persona: string): (r: string)
    ensures ConfiguredVoice(language, persona).Some? ==> r == ConfiguredVoice(language, persona).value
    ensures ConfiguredVoice(language, persona).None? ==> r == ConfiguredVoice("en", "professional").value
  {
    var configured := ConfiguredVoice(language, persona);
    OrElse(if configured.Some? then configured.value else "", Adam)
  }

  /** Every configured language has a professional and a friendly voice. */
  lemma ConfiguredLanguages(language: string)
    requires language in ["en", "es", "fr", "de", "pt", "hi"]
    ensures ConfiguredVoice(language, "professional").Some? && ConfiguredVoice(language, "friendly").Some?
  {
  }

  /** No voice id is empty, so a configured voice is never replaced by the fallback. */
  lemma VoiceNeverEmpty(language: string, persona: string)
    ensures VoiceId(language, persona) != ""
  {
  }

  /** Spanish has no authoritative voice, and Telugu no voice at all: both read as English professional. */
  lemma VoiceFallbacks(persona: string)
    ensures VoiceId("es", "authoritative") == Adam
    ensures VoiceId("te", persona) == Adam
  {
  }

  /** The defaults of `textToSpeech` pick the English professional voice. */
  lemma DefaultVoice()
    ensures VoiceId("en", "professional") == Adam
  {
  }

  /** `getLanguageCode`: the browser locale for dictation, United States English for anything unknown. */
  function LanguageCode(language: string): (r: string)
    ensures r == "en-US" <==> language !in ["es", "fr", "de", "pt", "hi", "te", "yo"]
  {
    if language == "en" then "en-US"
    else if language == "es" then "es-ES"
    else if language == "fr" then "fr-FR"
    else if language == "de" then "de-DE"
    else if language == "pt" then "pt-BR"
    else if language == "hi" then "hi-IN"
    else if language == "te" then "te-IN"
    else if language == "yo" then "yo-NG"
    else "en-US"
  }

  /** Each mapped locale starts with the language it was mapped from. */
  lemma LanguageCodePrefix(language: string)
    requires language in ["en", "es", "fr", "de", "pt", "hi", "te", "yo"]
    ensures BeforeFirst(LanguageCode(language), '-') == language
  {
    var region := if language == "en" then "US" else if language == "es" then "ES"
      else if language == "fr" then "FR" else if language == "de" then "DE"
      else if language == "pt" then "BR" else if language == "hi" || language == "te" then "IN"
      else "NG";
    assert LanguageCode(language) == language + "-" + region;
    LocalePrefix(language, region);
  }

  lemma {:induction false} LocalePrefix(language: string, region: string)
    requires forall i | 0 <= i < |language| :: language[i] != '-'
    ensures BeforeFirst(language + "-" + region, '-') == language
  {
    if language != [] {
      assert (language + "-" + region)[1..] == language[1..] + "-" + region;
      LocalePrefix(language[1..], region);
    }
  }

  /** Every interface language has a dictation locale of its own. */
  lemma InterfaceLanguagesMapped(k: nat)
    requires k < |Language.SupportedLanguages|
    ensures BeforeFirst(LanguageCode(Language.SupportedLanguages[k].code), '-') == Language.SupportedLanguages[k].code
  {
    var codes := ["en", "hi", "pt", "fr", "yo", "te"];
    assert forall i | 0 <= i < 6 :: Language.SupportedLanguages[i].code == codes[i];
    LanguageCodePrefix(codes[k]);
  }

  /** The promise returned by the last `startListening` that installed the handlers. */
  datatype Promise = NoPromise | Pending | Resolved(transcript: string) | Rejected(message: string)

  /** What one call of `startListening` does to the promise it returns. */
  datatype StartOutcome = AlreadyListening | Started | StartFailed

  const ErrorPrefix := "Speech recognition error: "
  const UnsupportedMessage := "Speech recognition not supported in this browser"

  /** `SpeechRecognition`: the flag, the locale, whether the event handlers are installed, and their promise. */
  class SpeechRecognizer {
    var isListening: bool
    const lang: string
    var handlersInstalled: bool
    var promise: Promise

    /** The flag is only ever set after handlers that clear it are in place. */
    predicate Valid()
      reads this
    {
      isListening ==> handlersInstalled && promise == Pending
    }

    constructor(language: string)
      ensures Valid() && lang == LanguageCode(language) && !isListening && !handlersInstalled && promise == NoPromise
    {
      isListening := false;
      lang := LanguageCode(language);
      handlersInstalled := false;
      promise := NoPromise;
    }

    /**
     * `startListening`; `startError` is what the browser's `start()` throws, if anything. While
     * listening the call is rejected and nothing changes.
     */
    method StartListening(startError: Option<string>) returns (outcome: StartOutcome)
      requires Valid()
      modifies this
      ensures Valid()
      ensures old(isListening) ==>
                outcome == AlreadyListening && isListening && handlersInstalled == old(handlersInstalled) && promise == old(promise)
      ensures !old(isListening) && startError.Some? ==>
                outcome == StartFailed && !isListening && handlersInstalled && promise == Rejected(startError.value)
      ensures !old(isListening) && startError.None? ==> outcome == Started && isListening && handlersInstalled && promise == Pending
    {
      if isListening {
        return AlreadyListening;
      }
      isListening := true;
      handlersInstalled := true;
      promise := Pending;
      if startError.Some? {
        isListening := false;
        promise := Rejected(startError.value);
        return StartFailed;
      }
      outcome := Started;
    }

    /** `onresult`: the flag drops and the pending promise resolves with the transcript. */
    method OnResult(transcript: string)
      requires Valid()
      modifies this
      ensures Valid() && (handlersInstalled == old(handlersInstalled))
      ensures old(handlersInstalled) ==> !isListening && promise == Settle(old(promise), Resolved(transcript))
      ensures !old(handlersInstalled) ==> isListening == old(isListening) && promise == old(promise)
    {
      if handlersInstalled {
        isListening := false;
        promise := Settle(promise, Resolved(transcript));
      }
    }

    /** `onerror`: the flag drops and the pending promise is rejected with the browser's error. */
    method OnError(error: string)
      requires Valid()
      modifies this
      ensures Valid() && (handlersInstalled == old(handlersInstalled))
      ensures old(handlersInstalled) ==> !isListening && promise == Settle(old(promise), Rejected(ErrorPrefix + error))
      ensures !old(handlersInstalled) ==> isListening == old(isListening) && promise == old(promise)
    {
      if handlersInstalled {
        isListening := false;
        promise := Settle(promise, Rejected(ErrorPrefix + error));
      }
    }

    /** `onend`: the flag drops; the promise is left as it is. */
    method OnEnd()
      requires Valid()
      modifies this
      ensures Valid() && handlersInstalled == old(handlersInstalled) && promise == old(promise)
      ensures old(handlersInstalled) ==> !isListening
      ensures !old(handlersInstalled) ==> isListening == old(isListening)
    {
      if handlersInstalled {
        isListening := false;
      }
    }

    /** `stopListening`: acts only while listening, and always leaves the flag down. */
    method StopListening()
      requires Valid()
      modifies this
      ensures Valid() && !isListening && handlersInstalled == old(handlersInstalled) && promise == old(promise)
    {
      if isListening {
        isListening := false;
      }
    }
  }

  /** A promise settles once: later resolutions and rejections are ignored. */
  function Settle(p: Promise, next: Promise): (r: Promise)
    ensures p == Pending ==> r == next
    ensures p != Pending ==> r == p
  {
    if p.Pending? then next else p
  }

  /** `new SpeechRecognition(language)`: throws where the browser has no speech recognition. */
  method NewRecognizer(language: string, supported: bool) returns (r: Result<SpeechRecognizer, string>)
    ensures !supported ==> r == Failure(UnsupportedMessage)
    ensures supported ==> r.Success? && fresh(r.value) && r.value.Valid() && !r.value.isListening
                          && r.value.lang == LanguageCode(language)
  {
    if !supported {
      return Failure(UnsupportedMessage);
    }
    var recognizer := new SpeechRecognizer(language);
    r := Success(recognizer);
  }

  /**
   * A dictation round: start, a second start is turned away, the result arrives, the browser
   * ends the session, and a new start is accepted again.
   */
  method DictationRound(language: string, transcript: string) returns (heard: Promise, again: StartOutcome)
    ensures heard == Resolved(transcript) && again == Started
  {
    var recognizer := new SpeechRecognizer(language);
    var first := recognizer.StartListening(None);
    var second := recognizer.StartListening(None);
    assert second == AlreadyListening;
    recognizer.OnResult(transcript);
    heard := recognizer.promise;
    recognizer.OnEnd();
    again := recognizer.StartListening(None);
  }
}
