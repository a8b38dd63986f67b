/**
 * The message log of the chat screen (pages/chat.js) and the per-message
 * translation cache: the message record, the invariants the log keeps, the
 * lookups and updates the event handlers apply to it, and the two selectors
 * that decide what a message shows and what is read aloud.
 */
module ChatLog {
  import opened Wrappers

  /**
   * One entry of the log. `translations` maps a language code to the translated
   * text of `text`; `sender` is absent on system notices, which carry no label.
   * The display timestamp is not modelled.
   */
  datatype Message = Message(
    id: nat,
    text: string,
    lang: string,
    isMe: bool,
    isSystem: bool,
    isVoiceNote: bool,
    translations: map<string, string>,
    sender: Option<string>)

  /** The eight language codes the screen offers, in menu order. */
  const LANGUAGES: seq<string> := ["en", "es", "fr", "ar", "ur", "zh", "hi", "pt"]

  const PROVIDER_NAME: string := "Dr. Martinez"

  const WELCOME_TEXT: string :=
    "Welcome to Healthcare Chat! I'm Dr. Martinez, your AI healthcare assistant. How can I help you today?"

  /** The string the translation service answers with when it could not translate. */
  const FAILED_SENTINEL: string := "Translation failed"

  const WELCOME_ID: nat := 1

  /** The message the log is seeded with when the screen mounts. */
  function Welcome(): (m: Message)
    ensures m.id == WELCOME_ID && !m.isMe && !m.isSystem && m.translations == map[]
    ensures m.lang == "en" && m.sender == Some(PROVIDER_NAME)
  {
    Message(WELCOME_ID, WELCOME_TEXT, "en", false, false, false, map[], Some(PROVIDER_NAME))
  }

  /** A notice appended by `addSystemMessage`: a system entry tagged English. */
  function SystemNotice(id: nat, text: string): (m: Message)
    ensures m.id == id && m.text == text && m.lang == "en"
    ensures m.isSystem && !m.isMe && m.translations == map[] && m.sender.None?
  {
    Message(id, text, "en", false, true, false, map[], None)
  }

  /** The viewer's own outgoing message. */
  function OwnMessage(id: nat, text: string, lang: string, isVoiceNote: bool, userName: string): (m: Message)
    ensures m.id == id && m.text == text && m.lang == lang && m.isVoiceNote == isVoiceNote
    ensures m.isMe && !m.isSystem && m.translations == map[] && m.sender == Some(userName)
  {
    Message(id, text, lang, true, false, isVoiceNote, map[], Some(userName))
  }

  /** The provider's reply, tagged with the viewer's language. */
  function ProviderMessage(id: nat, text: string, lang: string): (m: Message)
    ensures m.id == id && m.text == text && m.lang == lang
    ensures !m.isMe && !m.isSystem && m.translations == map[] && m.sender == Some(PROVIDER_NAME)
  {
    Message(id, text, lang, false, false, false, map[], Some(PROVIDER_NAME))
  }

  // ---------------------------------------------------------------------------
  // Invariants of the log

  /** Ids grow along the log, so no two entries share one. */
  ghost predicate IdsIncreasing(log: seq<Message>) {
    forall i, j :: 0 <= i < j < |log| ==> log[i].id < log[j].id
  }

  /** Every id in the log is below the next id to hand out. */
  ghost predicate IdsBelow(log: seq<Message>, nextId: nat) {
    forall i :: 0 <= i < |log| ==> log[i].id < nextId
  }

  /** No message caches a translation into its own language. */
  ghost predicate NoSelfTranslation(log: seq<Message>) {
    forall i :: 0 <= i < |log| ==> log[i].lang !in log[i].translations
  }

  /** A translation the cache accepts: non-empty and not the failure sentinel. */
  predicate UsableTranslation(t: string) {
    t != "" && t != FAILED_SENTINEL
  }

  /** Every cached translation is one the cache accepts. */
  ghost predicate CacheEntriesUsable(log: seq<Message>) {
    forall i, k :: 0 <= i < |log| && k in log[i].translations ==> UsableTranslation(log[i].translations[k])
  }

  ghost predicate WellFormed(log: seq<Message>, nextId: nat) {
    && IdsIncreasing(log)
    && IdsBelow(log, nextId)
    && NoSelfTranslation(log)
    && CacheEntriesUsable(log)
  }

  /**
   * `after` is `before` grown by a transition: the same messages in the same
   * places, with the same id, text, language, kind and sender, whose caches may
   * only have gained entries; new messages may follow.
   */
  ghost predicate Grows(before: Message, after: Message) {
    && after.(translations := before.translations) == before
    && forall k :: k in before.translations ==> k in after.translations && after.translations[k] == before.translations[k]
  }

  ghost predicate Extends(before: seq<Message>, after: seq<Message>) {
    |before| <= |after| && forall i :: 0 <= i < |before| ==> Grows(before[i], after[i])
  }

  lemma {:induction false} ExtendsTransitive(a: seq<Message>, b: seq<Message>, c: seq<Message>)
    requires Extends(a, b) && Extends(b, c)
    ensures Extends(a, c)
  {
    forall i | 0 <= i < |a| ensures Grows(a[i], c[i]) {
      assert Grows(a[i], b[i]) && Grows(b[i], c[i]);
    }
  }

  /** Appending a fresh message with an empty cache keeps the invariants and only extends the log. */
  lemma AppendKeepsWellFormed(log: seq<Message>, nextId: nat, m: Message)
    requires WellFormed(log, nextId)
    requires m.id == nextId && m.translations == map[]
    ensures WellFormed(log + [m], nextId + 1)
    ensures Extends(log, log + [m])
  {
  }

  // ---------------------------------------------------------------------------
  // Lookup and translation (pages/chat.js:187-217)

  /** `messages.find(msg => msg.id === id)`, as the index of the first match. */
  function FindIndex(log: seq<Message>, id: nat): (r: Option<nat>)
    ensures r.Some? ==> r.value < |log| && log[r.value].id == id
    ensures r.Some? ==> forall j :: 0 <= j < r.value ==> log[j].id != id
    ensures r.None? <==> forall j :: 0 <= j < |log| ==> log[j].id != id
  {
    if log == [] then None
    else if log[0].id == id then Some(0)
    else match FindIndex(log[1..], id)
      case None => None
      case Some(k) => Some(k + 1)
  }

  /** JavaScript truthiness of `m.translations[lang]`: present and not the empty string. */
  predicate HasTranslation(m: Message, lang: string)
    ensures HasTranslation(m, lang) ==> lang in m.translations
    ensures lang in m.translations && UsableTranslation(m.translations[lang]) ==> HasTranslation(m, lang)
  {
    lang in m.translations && m.translations[lang] != ""
  }

  /** What `handleTranslate` asks of the message it found before it makes a request. */
  predicate NeedsTranslation(m: Message, target: string) {
    !HasTranslation(m, target) && m.lang != target
  }

  /**
   * The index of the message `handleTranslate(id, target)` sends to the
   * translation service, or None when it returns without a request: no message
   * has the id, the found one already has a translation into `target`, or it is
   * written in `target`.
   */
  function TranslateTarget(log: seq<Message>, id: nat, target: string): (r: Option<nat>)
    ensures r.Some? ==> r == FindIndex(log, id) && NeedsTranslation(log[r.value], target)
    ensures r.None? ==> FindIndex(log, id).None? || !NeedsTranslation(log[FindIndex(log, id).value], target)
  {
    match FindIndex(log, id)
    case None => None
    case Some(i) => if NeedsTranslation(log[i], target) then Some(i) else None
  }

  /**
   * The functional update of pages/chat.js:201-207: every message with the id gets
   * `translation` under `target`; the others are untouched.
   */
  function SetTranslation(log: seq<Message>, id: nat, target: string, translation: string): (r: seq<Message>)
    ensures |r| == |log|
    ensures forall i :: 0 <= i < |log| && log[i].id != id ==> r[i] == log[i]
    ensures forall i :: 0 <= i < |log| && log[i].id == id ==>
      && r[i].translations == log[i].translations[target := translation]
      && r[i].(translations := log[i].translations) == log[i]
  {
    seq(|log|, i requires 0 <= i < |log| =>
      if log[i].id == id then log[i].(translations := log[i].translations[target := translation]) else log[i])
  }

  /** With distinct ids, no request is made exactly when no message with the id still needs the translation. */
  lemma NoRequestIff(log: seq<Message>, id: nat, target: string)
    requires IdsIncreasing(log)
    ensures TranslateTarget(log, id, target).None? <==>
      forall j :: 0 <= j < |log| && log[j].id == id ==> HasTranslation(log[j], target) || log[j].lang == target
  {
  }

  /**
   * A successful translation stores the entry on exactly the message with the id:
   * its cache gains `target`, nothing else about it changes, every other message
   * is unchanged, and the log still keeps its invariants and only grew.
   */
  lemma TranslationUpdate(log: seq<Message>, nextId: nat, id: nat, target: string, translation: string)
    requires WellFormed(log, nextId)
    requires TranslateTarget(log, id, target).Some?
    requires UsableTranslation(translation)
    ensures var i := TranslateTarget(log, id, target).value;
            var r := SetTranslation(log, id, target, translation);
            && |r| == |log|
            && r[i].translations == log[i].translations[target := translation]
            && r[i].(translations := log[i].translations) == log[i]
            && target !in log[i].translations
            && (forall j :: 0 <= j < |log| && j != i ==> r[j] == log[j])
            && WellFormed(r, nextId)
            && Extends(log, r)
  {
    var i := TranslateTarget(log, id, target).value;
    var r := SetTranslation(log, id, target, translation);
    forall j | 0 <= j < |log| && j != i ensures r[j] == log[j] {
      if j < i {
        assert log[j].id < log[i].id;
      } else {
        assert log[i].id < log[j].id;
      }
    }
  }

  /** Translating the same message into the same language again makes no request. */
  lemma TranslateIdempotent(log: seq<Message>, nextId: nat, id: nat, target: string, translation: string)
    requires WellFormed(log, nextId)
    requires TranslateTarget(log, id, target).Some?
    requires UsableTranslation(translation)
    ensures TranslateTarget(SetTranslation(log, id, target, translation), id, target).None?
  {
    var r := SetTranslation(log, id, target, translation);
    TranslationUpdate(log, nextId, id, target, translation);
    var i := TranslateTarget(log, id, target).value;
    assert r[i].id == id && HasTranslation(r[i], target);
    assert IdsIncreasing(r);
    NoRequestIff(r, id, target);
  }

  /**
   * Why the ids must be fresh: when two messages share an id, `find` picks the
   * first, but the update reaches both, so the second one can be given a
   * translation into its own language.
   */
  lemma CollidingIdsBreakNoSelfTranslation()
    ensures var log := [
              Message(5, "I have a headache", "en", true, false, false, map[], Some("patient")),
              Message(5, "Tengo dolor de cabeza", "es", false, false, false, map[], Some(PROVIDER_NAME))];
            && TranslateTarget(log, 5, "es") == Some(0)
            && !NoSelfTranslation(SetTranslation(log, 5, "es", "Me duele la cabeza"))
  {
    var log := [
      Message(5, "I have a headache", "en", true, false, false, map[], Some("patient")),
      Message(5, "Tengo dolor de cabeza", "es", false, false, false, map[], Some(PROVIDER_NAME))];
    var r := SetTranslation(log, 5, "es", "Me duele la cabeza");
    assert r[1].translations == map["es" := "Me duele la cabeza"];
    assert r[1].lang in r[1].translations;
  }

  // ---------------------------------------------------------------------------
  // Selectors (pages/chat.js:348-361, 376-377, 407-408)

  /** The lens of pages/chat.js:348: the cached translation into the viewer's language, when one is shown. */
  predicate ShowsTranslation(m: Message, viewer: string) {
    HasTranslation(m, viewer) && m.lang != viewer
  }

  /**
   * The text a message shows: its own text, or a non-empty cached translation
   * into the viewer's language when it is written in another language.
   */
  function DisplayText(m: Message, viewer: string): (r: string)
    ensures r == m.text || (viewer in m.translations && r == m.translations[viewer] && r != "" && m.lang != viewer)
    ensures m.lang == viewer || viewer !in m.translations ==> r == m.text
    ensures ShowsTranslation(m, viewer) ==> r == m.translations[viewer]
  {
    if ShowsTranslation(m, viewer) then m.translations[viewer] else m.text
  }

  /** The language of the text the lens shows. */
  function DisplayLang(m: Message, viewer: string): (r: string)
    ensures r == m.lang || r == viewer
    ensures r != m.lang ==> viewer in m.translations && DisplayText(m, viewer) == m.translations[viewer]
    ensures ShowsTranslation(m, viewer) ==> r == viewer
  {
    if ShowsTranslation(m, viewer) then viewer else m.lang
  }

  /** The text handed to read-aloud: `msg.translations[myLanguage] || msg.text`. */
  function ReadAloudText(m: Message, viewer: string): (r: string)
    ensures r == m.text || (viewer in m.translations && r == m.translations[viewer] && r != "")
    ensures m.text != "" ==> r != ""
    ensures viewer !in m.translations ==> r == m.text
    ensures HasTranslation(m, viewer) ==> r == m.translations[viewer]
  {
    if HasTranslation(m, viewer) then m.translations[viewer] else m.text
  }

  /** The language handed to read-aloud: `msg.translations[myLanguage] ? myLanguage : msg.lang`. */
  function ReadAloudLang(m: Message, viewer: string): (r: string)
    ensures r == m.lang || r == viewer
    ensures r != m.lang ==> viewer in m.translations && ReadAloudText(m, viewer) == m.translations[viewer]
    ensures HasTranslation(m, viewer) ==> r == viewer
  {
    if HasTranslation(m, viewer) then viewer else m.lang
  }

  /** On a message that caches no translation into its own language, read-aloud speaks what the lens shows, in its language. */
  lemma ReadAloudMatchesDisplay(m: Message, viewer: string)
    requires m.lang !in m.translations
    ensures ReadAloudText(m, viewer) == DisplayText(m, viewer)
    ensures ReadAloudLang(m, viewer) == DisplayLang(m, viewer)
  {
  }

  /**
   * Translating a message into the viewer's language is what the lens and
   * read-aloud then use: the translated message shows and speaks the new text,
   * in the viewer's language.
   */
  lemma TranslationReachesLens(log: seq<Message>, nextId: nat, id: nat, viewer: string, t: string)
    requires WellFormed(log, nextId)
    requires TranslateTarget(log, id, viewer).Some?
    requires UsableTranslation(t)
    ensures var i := TranslateTarget(log, id, viewer).value;
            var r := SetTranslation(log, id, viewer, t);
            && i < |r|
            && DisplayText(r[i], viewer) == t && DisplayLang(r[i], viewer) == viewer
            && ReadAloudText(r[i], viewer) == t && ReadAloudLang(r[i], viewer) == viewer
  {
    TranslationUpdate(log, nextId, id, viewer, t);
  }

  /** The two selectors test different conditions, so without that invariant they disagree. */
  lemma ReadAloudDivergesOnSelfTranslation()
    ensures var m := Message(2, "hello", "en", true, false, false, map["en" := "hi there"], Some("patient"));
            ReadAloudText(m, "en") != DisplayText(m, "en")
  {
  }

  /** `languages.filter(lang => lang.code !== exclude)`: the translation menu of a message. */
  function OtherLanguages(langs: seq<string>, exclude: string): (r: seq<string>)
    ensures |r| <= |langs|
    ensures forall x :: x in r <==> x in langs && x != exclude
  {
    if langs == [] then []
    else if langs[0] != exclude then [langs[0]] + OtherLanguages(langs[1..], exclude)
    else OtherLanguages(langs[1..], exclude)
  }

  predicate Distinct(s: seq<string>) {
    forall i, j :: 0 <= i < j < |s| ==> s[i] != s[j]
  }

  /** Over distinct codes, the menu drops exactly one entry when the message's language is among them, none otherwise. */
  lemma {:induction false} OtherLanguagesCount(langs: seq<string>, exclude: string)
    requires Distinct(langs)
    ensures |OtherLanguages(langs, exclude)| == if exclude in langs then |langs| - 1 else |langs|
  {
    if langs != [] {
      assert Distinct(langs[1..]);
      OtherLanguagesCount(langs[1..], exclude);
      if langs[0] == exclude {
        assert exclude !in langs[1..];
      } else {
        assert exclude in langs <==> exclude in langs[1..];
      }
    }
  }

  /** The menu of a message in one of the eight supported languages offers the seven others. */
  lemma TranslationMenuSize(m: Message)
    requires m.lang in LANGUAGES
    ensures |OtherLanguages(LANGUAGES, m.lang)| == 7
  {
    OtherLanguagesCount(LANGUAGES, m.lang);
  }

  /** The menu keeps the order of the language list: an English message is offered these, in this order. */
  lemma EnglishTranslationMenu()
    ensures OtherLanguages(LANGUAGES, "en") == ["es", "fr", "ar", "ur", "zh", "hi", "pt"]
  {
    assert LANGUAGES[1..] == ["es", "fr", "ar", "ur", "zh", "hi", "pt"];
    OtherLanguagesKeepsAll(LANGUAGES[1..], "en");
  }

  /** A list that does not hold the excluded code passes through the filter whole. */
  lemma {:induction false} OtherLanguagesKeepsAll(langs: seq<string>, exclude: string)
    requires exclude !in langs
    ensures OtherLanguages(langs, exclude) == langs
  {
    if langs != [] {
      assert exclude !in langs[1..];
      OtherLanguagesKeepsAll(langs[1..], exclude);
    }
  }

  // ---------------------------------------------------------------------------
  // Recognition language and the options panel (pages/chat.js:60, 119, 183-185)

  /** The language tag given to the speech recognizer: Chinese is `zh-CN`, every other code is used as it is. */
  function RecognitionLang(viewer: string): (tag: string)
    ensures viewer == "zh" ==> tag == "zh-CN"
    ensures viewer != "zh" ==> tag == viewer
  {
    if viewer == "zh" then "zh-CN" else viewer
  }

  /** Distinct supported languages get distinct recognizer tags, and only Chinese is renamed. */
  lemma RecognitionLangFaithful(a: string, b: string)
    requires a in LANGUAGES && b in LANGUAGES
    ensures a != b ==> RecognitionLang(a) != RecognitionLang(b)
    ensures RecognitionLang(a) == a <==> a != "zh"
  {
  }

  /** `expandedMessage === id ? null : id`: the panel of `id` opens unless it was the open one. */
  function ToggleSelection(expanded: Option<nat>, id: nat): (r: Option<nat>)
    ensures r == Some(id) <==> expanded != Some(id)
    ensures r == None <==> expanded == Some(id)
  {
    if expanded == Some(id) then None else Some(id)
  }

  /** Toggling the same message twice restores the selection when it was empty or that message. */
  lemma ToggleTwice(expanded: Option<nat>, id: nat)
    requires expanded == None || expanded == Some(id)
    ensures ToggleSelection(ToggleSelection(expanded, id), id) == expanded
  {
  }

  // ---------------------------------------------------------------------------
  // The mount effect as written (pages/chat.js:33-95)

  /**
   * The log after the viewer picks a language, as the source behaves: the mount
   * effect lists the language among its dependencies, so every change of language
   * re-runs it and re-seeds the log with the welcome message.
   */
  function LogAfterLanguageEffect(log: seq<Message>, current: string, selected: string): (r: seq<Message>)
    ensures selected == current ==> r == log
    ensures selected != current ==> r == [Welcome()] && WellFormed(r, WELCOME_ID + 1)
  {
    if selected == current then log else [Welcome()]
  }

  /** A conversation in progress is lost when the viewer switches language. */
  lemma LanguageEffectDiscardsHistory()
    ensures var log := [Welcome(), OwnMessage(2, "I have a headache", "en", false, "patient")];
            && WellFormed(log, 3)
            && !Extends(log, LogAfterLanguageEffect(log, "en", "es"))
  {
  }
}
