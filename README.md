# Healthcare chat session model

A Dafny model of the session state machine of the chat screen, the `Chat`
component of `pages/chat.js`, in a multilingual healthcare chat front end. The
viewer talks with an automated provider. Any message can be translated into one
of eight languages, and any message or translation can be read aloud.

Stripped of React and the browser, the component is a record of state plus the
event handlers that change it. The state is:

- the message log;
- the input buffer;
- the recognition flags;
- one audio playback slot;
- the loading flag;
- the open options panel;
- the viewer's language.

The model has four modules:

- `Wrappers`: `Option`.
- `Text`: JavaScript's `String.prototype.trim` (ECMAScript 2024, section
  22.1.3.32: WhiteSpace and LineTerminator code points), and how a recognition
  result list is joined into one transcript.
- `ChatLog`: the message record and its translation cache. It holds the
  invariants the log keeps, the `find`/`map` lookups and updates the handlers
  apply, and the two selectors. One selector picks the text a message shows
  (the "lens"); the other picks the text and language handed to read-aloud.
- `Chat`: the class `ChatState`, with one method per event handler.

Each handler runs as one atomic step. The result of every external call (the
provider reply, the translation, the speech payload, whether audio playback
starts) is passed in as a parameter. The calls the screen makes to the outside
world are recorded, in order, in the field `effects`, so "no request is made"
is a statement about the state. Message ids come from a counter field `nextId`
instead of `Date.now()`. This makes id freshness explicit.
`ChatLog.CollidingIdsBreakNoSelfTranslation` shows what goes wrong when two
messages share an id.

Every method that may change the log keeps `Valid()` and ensures
`Extends(old(messages), messages)`. The remaining handlers cannot touch the log
or the id counter, because their `modifies` frames leave those fields out.
`Valid()` says that ids increase along the log, every id is below `nextId`, no
message caches a translation into its own language, and every cached entry is
non-empty and not the service's `"Translation failed"` sentinel. `Extends` says
the log is append-only: messages keep their place, id, text, language, kind and
sender, and a cache may only gain entries. The one exception is
`SelectLanguageAsWritten`; see Findings.

The model follows the code as written, which has these properties:

- the code has one shared `isLoading` flag, set before each call and cleared in
  each `finally`, and no reference count;
- the code has no registry of in-flight translations;
- the code sets the recognizer's language tag both at `startVoiceRecording` and
  whenever the recognizer is re-created after a language change;
- when `speakText` preempts playing audio, the code pauses it but does not
  revoke its object URL.

## Model

| member | source | states |
|---|---|---|
| `Text.TrimStart` | pages/chat.js:133 | the result is the suffix that remains after the longest prefix of ECMAScript white space, and it does not start with white space |
| `Text.TrimEnd` | pages/chat.js:133 | the result is the prefix that remains before the longest suffix of white space, and it does not end with white space |
| `Text.Trim` | pages/chat.js:137 | `trim` gives a contiguous slice of the input that neither starts nor ends with white space |
| `Text.TrimRemovesOnlyWhiteSpace` | pages/chat.js:133 | everything `trim` drops, before and after the slice it keeps, is white space |
| `Text.TrimEmptyIffBlank` | pages/chat.js:133 | `input.trim()` is empty exactly when the input is all white space (both directions) |
| `Text.TrimKeepsTrimmed` | pages/chat.js:137 | a string with no white space at either end is left unchanged by `trim` |
| `Text.TrimIdempotent` | pages/chat.js:137 | trimming the stored text again changes nothing |
| `Text.Transcript` | pages/chat.js:67-70 | a transcript exists exactly when every result has a first alternative |
| `Text.TranscriptAppend` | pages/chat.js:67-70 | the transcript of two result lists joined is the two transcripts joined, and fails if either fails |
| `Text.TranscriptOfFirstAlternatives` | pages/chat.js:68-70 | when every result has an alternative, the transcript is the plain concatenation of each result's first alternative (`result[0]`), in order |
| `ChatLog.Welcome` | pages/chat.js:40-51 | the seed message has id 1, is written in English by the provider, is neither the viewer's nor a system entry, and has an empty cache |
| `ChatLog.SystemNotice` | pages/chat.js:103-115 | a notice carries the given id and text, is tagged English, is a system entry with no sender label, and has an empty cache |
| `ChatLog.OwnMessage` | pages/chat.js:135-144 | the viewer's message carries the id, text, language and voice-note flag it is given, is marked as the viewer's, is labelled with the user name, and has an empty cache |
| `ChatLog.ProviderMessage` | pages/chat.js:157-165 | the reply carries the id, text and language it is given, is labelled with the provider's name, and has an empty cache |
| `ChatLog.ExtendsTransitive` | pages/chat.js:104-114 | append-only growth composes: a chain of transitions still only extends the log |
| `ChatLog.AppendKeepsWellFormed` | pages/chat.js:104-114 | appending a message with a fresh id and an empty cache keeps every log invariant and extends the log |
| `ChatLog.HasTranslation` | pages/chat.js:189 | a truthy cache entry is present under the key; every entry the cache accepts is truthy |
| `ChatLog.FindIndex` | pages/chat.js:188 | `find` returns the first message with the id, or none exactly when no message has it |
| `ChatLog.TranslateTarget` | pages/chat.js:188-189 | the message sent for translation is the one `find` returns, has no truthy entry for the target, and is not in the target language; otherwise no request is made |
| `ChatLog.SetTranslation` | pages/chat.js:201-207 | the `map` update keeps the length; a message with another id is unchanged; a message with the id gains the entry under the target and keeps everything else |
| `ChatLog.NoRequestIff` | pages/chat.js:188-189 | with distinct ids, no request is made exactly when every message with the id already has the translation or is written in the target language (both directions) |
| `ChatLog.TranslationUpdate` | pages/chat.js:200-207 | an accepted translation adds the target key to exactly the message with the id; text, language and all other messages stay the same, no existing entry is overwritten, and the invariants hold |
| `ChatLog.TranslateIdempotent` | pages/chat.js:189 | after a successful translation, translating the same message into the same language again makes no request |
| `ChatLog.CollidingIdsBreakNoSelfTranslation` | pages/chat.js:188-207 | when two messages share an id, `find` and the `map` update reach different messages, and a message can be given a translation into its own language |
| `ChatLog.DisplayText` | pages/chat.js:348-361 | a message written in another language that has a truthy cached translation into the viewer's language shows that translation; otherwise it shows its own text (a message in the viewer's language, or without that cache key, always does) |
| `ChatLog.DisplayLang` | pages/chat.js:348-361 | when the lens shows the translation, the shown text is in the viewer's language; otherwise in the message's; it is the viewer's only when the shown text is the cached translation |
| `ChatLog.ReadAloudText` | pages/chat.js:376 | read-aloud gets the truthy cached translation into the viewer's language when there is one, and the message's text otherwise; it never gets an empty string for a message with text |
| `ChatLog.ReadAloudLang` | pages/chat.js:377 | read-aloud is tagged with the viewer's language when a truthy translation is cached, and the message's language otherwise; the viewer's only when the text handed over is the cached translation |
| `ChatLog.TranslationReachesLens` | pages/chat.js:200-207 | after an accepted translation into the viewer's language, the translated message shows and reads aloud the new text, tagged with the viewer's language |
| `ChatLog.ReadAloudMatchesDisplay` | pages/chat.js:348-377 | on a message with no translation into its own language, read-aloud speaks the text the lens shows, in that text's language |
| `ChatLog.ReadAloudDivergesOnSelfTranslation` | pages/chat.js:348-377 | without that invariant, the two selectors disagree |
| `ChatLog.OtherLanguages` | pages/chat.js:407-408 | the translation menu holds exactly the supported codes other than the message's language |
| `ChatLog.OtherLanguagesCount` | pages/chat.js:407-408 | over distinct codes, the menu drops one entry if the message's language is among them and none otherwise |
| `ChatLog.EnglishTranslationMenu` | pages/chat.js:407-408 | the filter keeps the order of the language list: an English message is offered es, fr, ar, ur, zh, hi, pt in that order |
| `ChatLog.OtherLanguagesKeepsAll` | pages/chat.js:407-408 | a list without the excluded code passes through the filter unchanged |
| `ChatLog.TranslationMenuSize` | pages/chat.js:22-31 | a message in a supported language is offered the seven other languages |
| `ChatLog.RecognitionLang` | pages/chat.js:119 | the recognizer tag is `zh-CN` for Chinese and the code itself otherwise |
| `ChatLog.RecognitionLangFaithful` | pages/chat.js:119 | the recognizer tag is `zh-CN` for Chinese and the code itself for every other language; distinct languages get distinct tags |
| `ChatLog.ToggleSelection` | pages/chat.js:183-185 | the panel of the id is open afterwards exactly when it was not open before |
| `ChatLog.ToggleTwice` | pages/chat.js:183-185 | toggling the same message twice restores a closed or self-open selection |
| `ChatLog.LogAfterLanguageEffect` | pages/chat.js:40-51 | re-running the effect with the same language keeps the log; with another language, the log becomes the welcome message alone, which is well formed |
| `ChatLog.LanguageEffectDiscardsHistory` | pages/chat.js:41-52 | after a language change, the re-seeded log does not extend a conversation in progress |
| `Chat.RecognitionErrorNotice` | pages/chat.js:83 | the recognition error notice quotes the error code right after its fixed prefix |
| `Chat.Accepted` | pages/chat.js:200 | a translation is cached exactly when it is a reply that is neither empty nor the failure sentinel |
| `Chat.ChatState.constructor` | pages/chat.js:41-60 | the log is seeded with the welcome message, the language is English, the recognizer tag matches it, and nothing is pending |
| `Chat.ChatState.AddSystemMessage` | pages/chat.js:103-115 | appends exactly one English system notice with a fresh id |
| `Chat.ChatState.EditInput` | pages/chat.js:464 | typing replaces the input buffer |
| `Chat.ChatState.SendMessage` | pages/chat.js:132-148 | when `input.trim()` is empty nothing changes and no request is made (by `Text.TrimEmptyIffBlank`, exactly when the input is all white space); otherwise appends the viewer's message with the trimmed text in the viewer's language, then exactly one reply or notice, clears the input and asks the provider once |
| `Chat.ChatState.AppendOwnMessage` | pages/chat.js:135-146 | appends exactly the viewer's message with the next id, in the viewer's language |
| `Chat.ChatState.RequestProviderReply` | pages/chat.js:150-173 | asks the provider once; on success appends the reply tagged with the viewer's language, on failure exactly one system notice; loading ends cleared |
| `Chat.ChatState.KeyPress` | pages/chat.js:176-181 | Enter without Shift sends a message that is not a voice note: on input that trims to empty nothing changes; otherwise the two messages `SendMessage` appends are appended, the input is cleared and the provider is asked once; any other key changes nothing |
| `Chat.ChatState.ToggleMessageOptions` | pages/chat.js:183-185 | the selection slot becomes the toggle of the id |
| `Chat.ChatState.HandleTranslate` | pages/chat.js:187-217 | with no target, nothing changes and no request is made; otherwise one request with the message's text and language; an accepted reply is cached on that message alone, any other result appends one notice and caches nothing |
| `Chat.ChatState.SpeakText` | pages/chat.js:219-260 | audio in the slot is paused and cleared before the request; a non-empty payload fills the slot and plays; an empty payload leaves the slot empty and appends the quota notice; a failed request or a refused start appends the service notice; loading ends cleared |
| `Chat.ChatState.OnAudioEnded` | pages/chat.js:239-242 | the end of playback clears the slot |
| `Chat.ChatState.OnAudioError` | pages/chat.js:244-248 | a playback error clears the slot and appends one notice |
| `Chat.ChatState.StartVoiceRecording` | pages/chat.js:117-124 | with a recognizer and no recording under way, sets the tag from the viewer's language and starts; without a recognizer, appends the "not supported" notice; while recording, does nothing |
| `Chat.ChatState.StopVoiceRecording` | pages/chat.js:126-130 | stops the recognizer only while recording; otherwise does nothing |
| `Chat.ChatState.OnRecognitionStart` | pages/chat.js:62-65 | both recognition flags become set |
| `Chat.ChatState.OnRecognitionResult` | pages/chat.js:67-72 | the input becomes the transcript, whatever it held before; it is kept when the handler throws |
| `Chat.ChatState.OnRecognitionEnd` | pages/chat.js:74-77 | both recognition flags are cleared and the input is kept |
| `Chat.ChatState.OnRecognitionError` | pages/chat.js:79-84 | both flags are cleared, exactly one notice quoting the error code is appended, and the input is kept |
| `Chat.ChatState.SelectLanguageAsWritten` | pages/chat.js:33-95 | a language change stops the old recognizer, tags the new one, and re-seeds the log with the welcome message |
| `Chat.ChatState.SelectLanguage` | pages/chat.js:295 | a language change keeps the log and re-tags the recognizer; picking the current language changes nothing |
| `Chat.TranslateTwice` | pages/chat.js:187-217 | two identical translation requests in a row issue exactly one call to the service, carrying the message's text and language; the log ends as the first call left it and only grew, no id is used, and loading ends cleared; the other fields are outside its frame |

## Left out

- Rendering is not modelled: the JSX markup, styling, the spinner and the scroll-into-view timer (pages/chat.js:97-101, 271-524). The exceptions are the selectors at 348, 376-377 and 407-408, which are modelled as functions.
- The HTTP calls, the speech recognizer, the `Audio` element and object URLs are foreign to the screen. Each is replaced by an outcome parameter and an entry in `effects`. Creating and revoking object URLs (pages/chat.js:235, 240, 245) is not modelled, so the model does not show that a preempted audio's URL is never revoked.
- Overlapping asynchronous handlers are not modelled. Each handler runs as one step, so `isLoading` is observed only as each handler leaves it.
- Wall-clock timestamps (`toLocaleTimeString`) are not modelled. `Date.now()` ids are replaced by the `nextId` counter.
- The localStorage session lookup, the redirects, logout and dashboard navigation (pages/chat.js:33-39, 262-269) are I/O and routing. `userName` is a constructor argument, and a signed-in user is assumed.
- pages/dashboard.js, pages/auth.js and pages/index.js are page glue and are not part of this model.
- Chat.ChatState.SelectLanguageAsWritten: the effect cleanup at pages/chat.js:91-93 pauses the audio captured when the effect last ran (a stale closure) and does not empty the slot. This is not modelled, so the playback slot is the same after a language change.
- Chat.ChatState.StartVoiceRecording: the recognizer throws if `start()` is called again before its `onstart` fires. That engine error is not modelled.
- Chat.ChatState.RequestProviderReply: the reply text is a string. A reply without a `response` field would produce a message whose text is `undefined`, and that case is not modelled.
- Chat.ChatState.HandleTranslate: the reply is modelled as a string, or as `TranslateError` when `translated_text` is missing or falsy (the catch at pages/chat.js:211-213). A truthy value that is not a string (such as `42`) passes the test at line 200 and is cached by the source. The model has no such value, because the service answers with a string; `TranslateOutcome` carries only strings.
- The `console.error` logging in the catch blocks (pages/chat.js:82, 169, 212, 255) is diagnostic output and not modelled.
- The recognition callbacks do not require a recognizer, although only a recognizer can fire them.
- `Text.Trim` works on Unicode code points, while JavaScript strings are UTF-16 units. Every code point `trim` removes lies in the Basic Multilingual Plane, so the two agree.

## Findings

| source | as written | input that shows it | evidently intended | confidence | as-written member | corrected member |
|---|---|---|---|---|---|---|
| pages/chat.js:33-95 | `myLanguage` is a dependency of the mount effect (line 95), so every language change re-runs the effect, and its `setMessages([...welcome])` (lines 41-52) replaces the whole log | a log holding the welcome message and one sent message, after which the viewer picks "es" in the header | the conversation is kept; a language change only alters the lens, the tag of new messages and the recognizer tag | high; not executed | `Chat.ChatState.SelectLanguageAsWritten`, with `ChatLog.LanguageEffectDiscardsHistory` | `Chat.ChatState.SelectLanguage` |
