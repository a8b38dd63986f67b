/**
 * The session state of the chat screen (the `Chat` component of pages/chat.js)
 * and its event handlers. Each handler runs to completion as one step; the
 * answer of every external collaborator it awaits (the provider, the
 * translation service, the speech service, the audio element) is a parameter.
 * The calls the screen makes to those collaborators are recorded, in order, in
 * `effects`, so that "no request is made" is a statement about the state.
 */
module Chat {
  import opened Wrappers
  import opened Text
  import opened ChatLog

  /** The audio the playback slot holds: what is being read aloud, and in which language. */
  datatype Playback = Playback(text: string, lang: string)

  /** A call from the screen to the outside world. */
  datatype Effect =
    | ProviderRequest(text: string, lang: string)                              // POST /provider-response
    | TranslateRequest(text: string, sourceLang: string, targetLang: string)   // POST /translate
    | SpeechRequest(text: string, lang: string)                                // POST /text-to-speech
    | RecognitionStart(lang: string)                                           // recognizer.start()
    | RecognitionStop                                                          // recognizer.stop()
    | AudioPause                                                               // audio.pause()
    | AudioPlay                                                                // audio.play()

  /** What the provider call settles to. */
  datatype ProviderOutcome = ProviderReply(response: string) | ProviderError

  /** What the translation call settles to; a reply without a translated text is an error. */
  datatype TranslateOutcome = TranslateReply(translated: string) | TranslateError

  /**
   * What the speech call settles to: the size of the audio payload and whether
   * starting playback succeeded, or a failed request.
   */
  datatype SpeechOutcome = SpeechPayload(size: nat, playStarts: bool) | SpeechError

  const PROVIDER_ERROR_NOTICE: string := "Error: Could not get provider response. Please try again."
  const TRANSLATE_ERROR_NOTICE: string := "Translation failed. Please try again."
  const QUOTA_NOTICE: string := "Text-to-speech not available (quota exceeded)."
  const SPEECH_ERROR_NOTICE: string := "Text-to-speech service temporarily unavailable."
  const PLAYBACK_ERROR_NOTICE: string := "Audio playback failed."
  const UNSUPPORTED_NOTICE: string :=
    "Speech recognition not supported in this browser. Please use Chrome, Edge, or Safari."

  const RECOGNITION_ERROR_PREFIX: string := "Speech recognition error: "

  /** The notice for a recognizer error: it quotes the error code right after the prefix. */
  function RecognitionErrorNotice(code: string): (notice: string)
    ensures |RECOGNITION_ERROR_PREFIX| + |code| <= |notice|
    ensures notice[..|RECOGNITION_ERROR_PREFIX|] == RECOGNITION_ERROR_PREFIX
    ensures notice[|RECOGNITION_ERROR_PREFIX|..|RECOGNITION_ERROR_PREFIX| + |code|] == code
  {
    RECOGNITION_ERROR_PREFIX + code + ". Please try again."
  }

  /** The message that follows the viewer's own message once the provider call settles. */
  function ReplyMessage(outcome: ProviderOutcome, id: nat, lang: string): Message {
    match outcome
    case ProviderReply(response) => ProviderMessage(id, response, lang)
    case ProviderError => SystemNotice(id, PROVIDER_ERROR_NOTICE)
  }

  /** The reply the translation cache accepts. */
  predicate Accepted(outcome: TranslateOutcome)
    ensures Accepted(outcome) ==> outcome.TranslateReply? && outcome.translated != "" && outcome.translated != FAILED_SENTINEL
    ensures outcome.TranslateReply? && outcome.translated !in {"", FAILED_SENTINEL} ==> Accepted(outcome)
  {
    outcome.TranslateReply? && UsableTranslation(outcome.translated)
  }

  /** Whether a speech outcome leaves audio in the playback slot. */
  predicate Plays(outcome: SpeechOutcome) {
    outcome.SpeechPayload? && outcome.size > 0
  }

  /** The notice `speakText` appends, if any. */
  function SpeechNotice(outcome: SpeechOutcome): Option<string> {
    match outcome
    case SpeechError => Some(SPEECH_ERROR_NOTICE)
    case SpeechPayload(size, playStarts) =>
      if size == 0 then Some(QUOTA_NOTICE)
      else if playStarts then None
      else Some(SPEECH_ERROR_NOTICE)
  }

  /** The notices an optional notice text becomes, with the id it would be given. */
  function Notices(notice: Option<string>, id: nat): seq<Message> {
    match notice
    case None => []
    case Some(text) => [SystemNotice(id, text)]
  }

  class ChatState {
    var messages: seq<Message>
    var input: string
    var isListening: bool
    var isRecording: bool
    var myLanguage: string
    var expandedMessage: Option<nat>
    var isLoading: bool
    var currentPlayingAudio: Option<Playback>
    /** The language tag last given to the recognizer (`recognitionRef.current.lang`). */
    var recognitionLang: string
    /** The next message id; stands for `Date.now()`, and is fresh by construction. */
    var nextId: nat
    var effects: seq<Effect>
    const userName: string
    /** Whether the browser offers speech recognition, so that `recognitionRef.current` is set. */
    const hasRecognizer: bool

    ghost predicate Valid()
      reads this
    {
      WELCOME_ID < nextId && WellFormed(messages, nextId)
    }

    /** The screen as it mounts for a signed-in user: the welcome message, English, nothing pending. */
    constructor (userName: string, hasRecognizer: bool)
      ensures Valid()
      ensures messages == [Welcome()] && input == "" && myLanguage == "en"
      ensures !isListening && !isRecording && !isLoading
      ensures expandedMessage == None && currentPlayingAudio == None
      ensures recognitionLang == RecognitionLang("en") && effects == []
      ensures this.userName == userName && this.hasRecognizer == hasRecognizer
    {
      messages := [Welcome()];
      input := "";
      isListening, isRecording := false, false;
      myLanguage := "en";
      expandedMessage := None;
      isLoading := false;
      currentPlayingAudio := None;
      recognitionLang := RecognitionLang("en");
      nextId := WELCOME_ID + 1;
      effects := [];
      this.userName := userName;
      this.hasRecognizer := hasRecognizer;
    }

    /** `addSystemMessage` (pages/chat.js:103-115): appends one system notice with a fresh id. */
    method AddSystemMessage(text: string)
      requires Valid()
      modifies this`messages, this`nextId
      ensures Valid() && Extends(old(messages), messages)
      ensures messages == old(messages) + [SystemNotice(old(nextId), text)]
      ensures nextId == old(nextId) + 1
    {
      AppendKeepsWellFormed(messages, nextId, SystemNotice(nextId, text));
      messages := messages + [SystemNotice(nextId, text)];
      nextId := nextId + 1;
    }

    /** The text box's change handler (pages/chat.js:464). */
    method EditInput(text: string)
      modifies this`input
      ensures input == text
    {
      input := text;
    }

    /**
     * `sendMessage` (pages/chat.js:132-174). Blank input changes nothing. Otherwise
     * the viewer's message (trimmed, tagged with the viewer's language) is appended
     * and the input cleared, the provider is asked, and exactly one message follows:
     * the provider's reply in the viewer's language, or a system notice.
     */
    method SendMessage(isVoiceNote: bool, reply: ProviderOutcome)
      requires Valid()
      modifies this`messages, this`nextId, this`input, this`isLoading, this`effects
      ensures Valid() && Extends(old(messages), messages)
      ensures Trim(old(input)) == "" ==>
        && messages == old(messages) && input == old(input) && nextId == old(nextId)
        && isLoading == old(isLoading) && effects == old(effects)
      ensures Trim(old(input)) != "" ==>
        && messages == old(messages) + [
             OwnMessage(old(nextId), Trim(old(input)), myLanguage, isVoiceNote, userName),
             ReplyMessage(reply, old(nextId) + 1, myLanguage)]
        && input == ""
        && nextId == old(nextId) + 2
        && !isLoading
        && effects == old(effects) + [ProviderRequest(Trim(old(input)), myLanguage)]
    {
      var currentInput := Trim(input);
      if currentInput == "" {
        return;
      }
      ghost var sent := OwnMessage(nextId, currentInput, myLanguage, isVoiceNote, userName);
      AppendOwnMessage(currentInput, isVoiceNote);
      input := "";
      ghost var withSent := messages;
      ghost var answer := ReplyMessage(reply, nextId, myLanguage);
      RequestProviderReply(currentInput, reply);
      ExtendsTransitive(old(messages), withSent, messages);
      assert messages == old(messages) + [sent] + [answer];
      assert old(messages) + [sent] + [answer] == old(messages) + [sent, answer];
    }

    /**
     * The first half of `sendMessage` (pages/chat.js:135-146): the viewer's message,
     * tagged with the viewer's language and with an empty cache, is appended.
     */
    method AppendOwnMessage(text: string, isVoiceNote: bool)
      requires Valid()
      modifies this`messages, this`nextId
      ensures Valid() && Extends(old(messages), messages)
      ensures messages == old(messages) + [OwnMessage(old(nextId), text, myLanguage, isVoiceNote, userName)]
      ensures nextId == old(nextId) + 1
    {
      var sent := OwnMessage(nextId, text, myLanguage, isVoiceNote, userName);
      AppendKeepsWellFormed(messages, nextId, sent);
      messages := messages + [sent];
      nextId := nextId + 1;
    }

    /**
     * The `try`/`catch`/`finally` of `sendMessage` (pages/chat.js:150-173): the provider
     * is asked about `text` in the viewer's language, and exactly one message is
     * appended, the reply or a system notice; the loading flag ends cleared.
     */
    method RequestProviderReply(text: string, reply: ProviderOutcome)
      requires Valid()
      modifies this`messages, this`nextId, this`isLoading, this`effects
      ensures Valid() && Extends(old(messages), messages)
      ensures messages == old(messages) + [ReplyMessage(reply, old(nextId), myLanguage)]
      ensures nextId == old(nextId) + 1
      ensures !isLoading
      ensures effects == old(effects) + [ProviderRequest(text, myLanguage)]
    {
      isLoading := true;
      effects := effects + [ProviderRequest(text, myLanguage)];
      match reply {
        case ProviderReply(response) =>
          var answer := ProviderMessage(nextId, response, myLanguage);
          AppendKeepsWellFormed(messages, nextId, answer);
          messages := messages + [answer];
          nextId := nextId + 1;
        case ProviderError =>
          AddSystemMessage(PROVIDER_ERROR_NOTICE);
      }
      isLoading := false;
    }

    /** `handleKeyPress` (pages/chat.js:176-181): Enter without Shift sends; any other key does nothing. */
    method KeyPress(isEnter: bool, shift: bool, reply: ProviderOutcome)
      requires Valid()
      modifies this`messages, this`nextId, this`input, this`isLoading, this`effects
      ensures Valid() && Extends(old(messages), messages)
      ensures !(isEnter && !shift) ==>
        messages == old(messages) && input == old(input) && nextId == old(nextId)
        && isLoading == old(isLoading) && effects == old(effects)
      ensures isEnter && !shift && Trim(old(input)) == "" ==>
        messages == old(messages) && input == old(input) && nextId == old(nextId)
        && isLoading == old(isLoading) && effects == old(effects)
      ensures isEnter && !shift && Trim(old(input)) != "" ==>
        && messages == old(messages) + [
             OwnMessage(old(nextId), Trim(old(input)), myLanguage, false, userName),
             ReplyMessage(reply, old(nextId) + 1, myLanguage)]
        && input == ""
        && nextId == old(nextId) + 2
        && !isLoading
        && effects == old(effects) + [ProviderRequest(Trim(old(input)), myLanguage)]
    {
      if isEnter && !shift {
        SendMessage(false, reply);
      }
    }

    /** `toggleMessageOptions` (pages/chat.js:183-185): opens the panel of `id`, or closes it if it was open. */
    method ToggleMessageOptions(id: nat)
      modifies this`expandedMessage
      ensures expandedMessage == ToggleSelection(old(expandedMessage), id)
    {
      expandedMessage := ToggleSelection(expandedMessage, id);
    }

    /**
     * `handleTranslate` (pages/chat.js:187-217). When the message is absent, already
     * translated into `targetLang` or written in it, nothing changes and no request
     * is made. Otherwise one request carries the message's text and language; an
     * accepted reply is cached on that message alone, anything else appends one
     * system notice and caches nothing.
     */
    method HandleTranslate(messageId: nat, targetLang: string, outcome: TranslateOutcome)
      requires Valid()
      modifies this`messages, this`nextId, this`isLoading, this`effects
      ensures Valid() && Extends(old(messages), messages)
      ensures TranslateTarget(old(messages), messageId, targetLang).None? ==>
        && messages == old(messages) && nextId == old(nextId)
        && isLoading == old(isLoading) && effects == old(effects)
      ensures TranslateTarget(old(messages), messageId, targetLang).Some? ==>
        var i := TranslateTarget(old(messages), messageId, targetLang).value;
        && !isLoading
        && effects == old(effects) + [TranslateRequest(old(messages)[i].text, old(messages)[i].lang, targetLang)]
        && (Accepted(outcome) ==>
              && nextId == old(nextId)
              && messages == SetTranslation(old(messages), messageId, targetLang, outcome.translated)
              && |messages| == |old(messages)|
              && messages[i].translations == old(messages)[i].translations[targetLang := outcome.translated]
              && messages[i].(translations := old(messages)[i].translations) == old(messages)[i]
              && forall j :: 0 <= j < |messages| && j != i ==> messages[j] == old(messages)[j])
        && (!Accepted(outcome) ==>
              && messages == old(messages) + [SystemNotice(old(nextId), TRANSLATE_ERROR_NOTICE)]
              && nextId == old(nextId) + 1)
    {
      var found := TranslateTarget(messages, messageId, targetLang);
      if found.None? {
        return;
      }
      var message := messages[found.value];

      isLoading := true;
      effects := effects + [TranslateRequest(message.text, message.lang, targetLang)];
      if Accepted(outcome) {
        TranslationUpdate(messages, nextId, messageId, targetLang, outcome.translated);
        messages := SetTranslation(messages, messageId, targetLang, outcome.translated);
      } else {
        AddSystemMessage(TRANSLATE_ERROR_NOTICE);
      }
      isLoading := false;
    }

    /**
     * `speakText` (pages/chat.js:219-260). Audio already in the slot is paused and
     * the slot emptied before the request, so at most one audio is ever held. A
     * non-empty payload fills the slot and starts playing; an empty one leaves the
     * slot empty and appends the quota notice; a failed request or a refused start
     * appends the service notice.
     */
    method SpeakText(text: string, lang: string, outcome: SpeechOutcome)
      requires Valid()
      modifies this`currentPlayingAudio, this`isLoading, this`effects, this`messages, this`nextId
      ensures Valid() && Extends(old(messages), messages)
      ensures !isLoading
      ensures effects == old(effects)
        + (if old(currentPlayingAudio).Some? then [AudioPause] else [])
        + [SpeechRequest(text, lang)]
        + (if Plays(outcome) then [AudioPlay] else [])
      ensures currentPlayingAudio == if Plays(outcome) then Some(Playback(text, lang)) else None
      ensures messages == old(messages) + Notices(SpeechNotice(outcome), old(nextId))
      ensures nextId == old(nextId) + |Notices(SpeechNotice(outcome), old(nextId))|
    {
      if currentPlayingAudio.Some? {
        effects := effects + [AudioPause];
        currentPlayingAudio := None;
      }

      isLoading := true;
      effects := effects + [SpeechRequest(text, lang)];
      match outcome {
        case SpeechError =>
          AddSystemMessage(SPEECH_ERROR_NOTICE);
        case SpeechPayload(size, playStarts) =>
          if size > 0 {
            currentPlayingAudio := Some(Playback(text, lang));
            effects := effects + [AudioPlay];
            if !playStarts {
              AddSystemMessage(SPEECH_ERROR_NOTICE);
            }
          } else {
            AddSystemMessage(QUOTA_NOTICE);
          }
      }
      isLoading := false;
    }

    /** The audio element's `onended` (pages/chat.js:239-242): the slot is emptied. */
    method OnAudioEnded()
      modifies this`currentPlayingAudio
      ensures currentPlayingAudio == None
    {
      currentPlayingAudio := None;
    }

    /** The audio element's `onerror` (pages/chat.js:244-248): the slot is emptied and one notice appended. */
    method OnAudioError()
      requires Valid()
      modifies this`currentPlayingAudio, this`messages, this`nextId
      ensures Valid() && Extends(old(messages), messages)
      ensures currentPlayingAudio == None
      ensures messages == old(messages) + [SystemNotice(old(nextId), PLAYBACK_ERROR_NOTICE)]
      ensures nextId == old(nextId) + 1
    {
      currentPlayingAudio := None;
      AddSystemMessage(PLAYBACK_ERROR_NOTICE);
    }

    /**
     * `startVoiceRecording` (pages/chat.js:117-124). With a recognizer and no
     * recording under way, the recognizer is given the viewer's language tag and
     * started; without a recognizer, the "not supported" notice is appended; while
     * recording, nothing happens.
     */
    method StartVoiceRecording()
      requires Valid()
      modifies this`recognitionLang, this`effects, this`messages, this`nextId
      ensures Valid() && Extends(old(messages), messages)
      ensures hasRecognizer && !isRecording ==>
        && recognitionLang == RecognitionLang(myLanguage)
        && effects == old(effects) + [RecognitionStart(RecognitionLang(myLanguage))]
        && messages == old(messages) && nextId == old(nextId)
      ensures hasRecognizer && isRecording ==>
        && recognitionLang == old(recognitionLang) && effects == old(effects)
        && messages == old(messages) && nextId == old(nextId)
      ensures !hasRecognizer ==>
        && recognitionLang == old(recognitionLang) && effects == old(effects)
        && messages == old(messages) + [SystemNotice(old(nextId), UNSUPPORTED_NOTICE)]
        && nextId == old(nextId) + 1
    {
      if hasRecognizer && !isRecording {
        recognitionLang := RecognitionLang(myLanguage);
        effects := effects + [RecognitionStart(recognitionLang)];
      } else if !hasRecognizer {
        AddSystemMessage(UNSUPPORTED_NOTICE);
      }
    }

    /** `stopVoiceRecording` (pages/chat.js:126-130): stops the recognizer only while recording. */
    method StopVoiceRecording()
      modifies this`effects
      ensures effects == old(effects) + (if hasRecognizer && isRecording then [RecognitionStop] else [])
    {
      if hasRecognizer && isRecording {
        effects := effects + [RecognitionStop];
      }
    }

    /** The recognizer's `onstart` (pages/chat.js:62-65). */
    method OnRecognitionStart()
      modifies this`isRecording, this`isListening
      ensures isRecording && isListening
    {
      isRecording := true;
      isListening := true;
    }

    /**
     * The recognizer's `onresult` (pages/chat.js:67-72): the input becomes the
     * joined transcript, whatever it held before. A result without alternatives
     * makes the handler throw before the input is set.
     */
    method OnRecognitionResult(results: seq<seq<string>>)
      modifies this`input
      ensures input == match Transcript(results) case Some(t) => t case None => old(input)
    {
      match Transcript(results)
      case Some(t) =>
        input := t;
      case None =>
    }

    /** The recognizer's `onend` (pages/chat.js:74-77): recording is over; the input is kept. */
    method OnRecognitionEnd()
      modifies this`isRecording, this`isListening
      ensures !isRecording && !isListening
    {
      isRecording := false;
      isListening := false;
    }

    /**
     * The recognizer's `onerror` (pages/chat.js:79-84): recording is over and one
     * notice naming the error code is appended; the input is kept.
     */
    method OnRecognitionError(code: string)
      requires Valid()
      modifies this`isRecording, this`isListening, this`messages, this`nextId
      ensures Valid() && Extends(old(messages), messages)
      ensures !isRecording && !isListening
      ensures messages == old(messages) + [SystemNotice(old(nextId), RecognitionErrorNotice(code))]
      ensures nextId == old(nextId) + 1
    {
      isRecording := false;
      isListening := false;
      AddSystemMessage(RecognitionErrorNotice(code));
    }

    /**
     * Picking a language in the header (pages/chat.js:295) as the source behaves:
     * the mount effect (pages/chat.js:33-95) depends on the language, so a change
     * stops the old recognizer, sets up a new one with the new tag, and re-seeds
     * the log with the welcome message, discarding the conversation.
     */
    method SelectLanguageAsWritten(lang: string)
      requires Valid()
      modifies this`myLanguage, this`messages, this`recognitionLang, this`effects
      ensures Valid()
      ensures myLanguage == lang
      ensures messages == LogAfterLanguageEffect(old(messages), old(myLanguage), lang)
      ensures lang != old(myLanguage) && hasRecognizer ==>
        recognitionLang == RecognitionLang(lang) && effects == old(effects) + [RecognitionStop]
      ensures lang == old(myLanguage) || !hasRecognizer ==>
        recognitionLang == old(recognitionLang) && effects == old(effects)
    {
      if lang != myLanguage {
        if hasRecognizer {
          effects := effects + [RecognitionStop];
          recognitionLang := RecognitionLang(lang);
        }
        messages := LogAfterLanguageEffect(messages, myLanguage, lang);
        myLanguage := lang;
      }
    }

    /**
     * Picking a language, with the log kept: the recognizer is replaced as in the
     * source, existing messages keep their language and cache, and only the lens
     * and the tag of later messages change.
     */
    method SelectLanguage(lang: string)
      requires Valid()
      modifies this`myLanguage, this`recognitionLang, this`effects
      ensures Valid()
      ensures messages == old(messages)
      ensures myLanguage == lang
      ensures lang != old(myLanguage) && hasRecognizer ==>
        recognitionLang == RecognitionLang(lang) && effects == old(effects) + [RecognitionStop]
      ensures lang == old(myLanguage) || !hasRecognizer ==>
        recognitionLang == old(recognitionLang) && effects == old(effects)
    {
      if lang != myLanguage {
        if hasRecognizer {
          effects := effects + [RecognitionStop];
          recognitionLang := RecognitionLang(lang);
        }
        myLanguage := lang;
      }
    }
  }

  /**
   * Translating the same message into the same language twice makes one request:
   * the second call finds the cached entry and changes nothing.
   */
  method TranslateTwice(chat: ChatState, messageId: nat, targetLang: string, translated: string)
    requires chat.Valid()
    requires TranslateTarget(chat.messages, messageId, targetLang).Some?
    requires UsableTranslation(translated)
    modifies chat`messages, chat`nextId, chat`isLoading, chat`effects
    ensures chat.Valid() && Extends(old(chat.messages), chat.messages)
    ensures !chat.isLoading
    ensures var i := TranslateTarget(old(chat.messages), messageId, targetLang).value;
      chat.effects == old(chat.effects) + [TranslateRequest(old(chat.messages)[i].text, old(chat.messages)[i].lang, targetLang)]
    ensures chat.messages == SetTranslation(old(chat.messages), messageId, targetLang, translated)
    ensures chat.nextId == old(chat.nextId)
  {
    chat.HandleTranslate(messageId, targetLang, TranslateReply(translated));
    TranslateIdempotent(old(chat.messages), old(chat.nextId), messageId, targetLang, translated);
    chat.HandleTranslate(messageId, targetLang, TranslateReply(translated));
  }
}
