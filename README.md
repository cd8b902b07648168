# Farming assistant chat: a Dafny model of its logic

This project models the plain logic under the UI of a multilingual,
voice-enabled farming-assistance chat app. The app is a React front end with
one Deno edge function. The model covers seven parts:

- **Language context** (`language_context.dfy`). The eleven supported languages, and the `t(key)` lookup with its fallback (active language, then English, then the key itself). It also covers the provider that holds the current language and persists it under `selectedLanguage`.
- **Registration wizard** (`register.dfy`). The steps name → phone → passcode → success, with their guards. Also the digit-only input filters and the profile saved under `userProfile`.
- **Compose bar** (`chat_input.dfy`). Trim-and-send, Enter handling, the microphone toggle and space-joined speech transcripts.
- **Image uploader** (`image_uploader.dfy`). File validation (an `image/` type and at most 5 MiB), the preview, and the analyze cycle with its busy flags and failure toasts.
- **`analyze-crop` edge function** (`analyze_crop.dfy`). Preflight, the credential check, the language directive, prompt selection, the forwarded gateway request and the status mapping.
- **Speech hook** (`speech.dfy`). The language-to-locale table, voice choice by primary subtag, and the `isListening` / `isSpeaking` flags.
- **Dashboard conversation** (`dashboard.dfy`). The message list, the active feature, the greeting reset and the simulated reply.

`text.dfy` holds the string operations these parts share: JavaScript's
`trim` (with the full ECMAScript whitespace set), the `/\D/g` filter,
`slice`, `startsWith`, and the decimal rendering of a status code.
`basics.dfy` holds `Option`.

Stateful components are classes. The component's state fields are class
fields, and each handler is a method whose `ensures` gives the whole new
state. The outside world enters as parameters or event methods:

- Browser events (recognition and synthesis events, a timer firing, a file reader finishing) are explicit methods.
- Network calls (storage upload, function invocation, the AI gateway) are outcome parameters.
- Local storage entries are fields of the class that owns them.
- Callbacks a component invokes (`onSend`, `onAnalysisComplete`, `onResult`, `onError`, `onEnd`) are logged into sequence fields or returned as values.

## Where the code and its description differ

The model follows the code in each of these cases.

- The current language is not always a listed code. The `useState` initializer adopts any stored string unchecked (LanguageContext.tsx:30-33). The mount effect adopts only listed codes but never repairs an unlisted one (45-50). The language field is therefore a `string`, and `UnlistedStoredCodeSurvivesStartup` states the case.
- `t(key)` also falls back when an entry is the empty string, not only when it is missing (`||`, LanguageContext.tsx:42).
- A 429 from the gateway is not passed through verbatim. The function answers with its own rate-limit message (analyze-crop/index.ts:124-129).
- The uploader has no separate complete, failed or empty states. It has two flags and the preview, and the preview stays after an analysis, successful or not. Only `clearImage` removes it.
- Recognition runs with `interimResults = false`, so the compose bar appends only final transcripts.

## Model

| member | source | states |
|---|---|---|
| `Text.Trim` | src/components/ChatInput.tsx:20 | `trim()` yields the infix between the leading and trailing whitespace. Everything outside that infix is whitespace, the result neither starts nor ends with whitespace, and it is empty exactly when the input is all whitespace. |
| `Text.TrimIdempotent` | src/components/ChatInput.tsx:21 | A message that was already trimmed is unchanged by trimming it again. |
| `Text.TrimOfTrimmed` | src/pages/Register.tsx:30 | A string with non-space characters at both ends is its own trim. |
| `Text.DigitsOf` | src/pages/Register.tsx:69 | `replace(/\D/g, '')` yields only ASCII digits, all drawn from the input (a sub-multiset of it). It is no longer than its input and leaves an all-digit input unchanged. |
| `Text.DigitsOfOne` | src/pages/Register.tsx:69 | A single character is kept exactly when it is a digit. With `Text.DigitsOfConcat`, this fixes the filter on every input. |
| `Text.DigitsOfConcat` | src/pages/Register.tsx:69 | The digit filter distributes over concatenation, so it keeps every digit in order. |
| `Text.Take` | src/pages/Register.tsx:69 | `slice(0, n)` is a prefix of length min(n, length). |
| `Text.Decimal` | supabase/functions/analyze-crop/index.ts:137 | The status rendered into the gateway error is a non-empty digit string with no leading zero. |
| `Text.DecimalRoundTrip` | supabase/functions/analyze-crop/index.ts:137 | Reading the rendered status back gives the status. |
| `Text.DecimalInjective` | supabase/functions/analyze-crop/index.ts:137 | Distinct gateway statuses give distinct error messages. |
| `LanguageContext.ParseCode` | src/contexts/LanguageContext.tsx:4 | A string recognised as a `LanguageCode` is that code's spelling. |
| `LanguageContext.ParseCodeInverse` | src/contexts/LanguageContext.tsx:4 | Every code is recognised again from its spelling. |
| `LanguageContext.Position` | src/contexts/LanguageContext.tsx:13-25 | Every code has an entry in the `languages` table. |
| `LanguageContext.LanguagesTable` | src/contexts/LanguageContext.tsx:13-25 | The table has 11 entries. Their codes are pairwise distinct, and each entry sits at its code's position. |
| `LanguageContext.ListedIffParses` | src/contexts/LanguageContext.tsx:47 | `languages.some(l => l.code === s)` holds exactly for the spellings of the `LanguageCode` union. |
| `LanguageContext.Translate` | src/contexts/LanguageContext.tsx:40-43 | `t(key)` returns the active entry when it is present and non-empty. Failing that, it returns the English entry when that is present and non-empty. Otherwise it returns `key`, also when the active table is missing. The result is never empty unless the key is. |
| `LanguageContext.InitialLanguage` | src/contexts/LanguageContext.tsx:30-33 | Startup uses the stored string when it is non-empty, without validating it, and `"en"` otherwise. |
| `LanguageContext.ReloadRecoversCode` | src/contexts/LanguageContext.tsx:30-38 | A stored code is recovered as the language by the next startup. |
| `LanguageContext.UnlistedStoredCodeSurvivesStartup` | src/contexts/LanguageContext.tsx:30-50 | A stored non-empty unlisted string becomes the language at startup, and it is not a listed code. |
| `LanguageContext.LanguageProvider.constructor` | src/contexts/LanguageContext.tsx:30-33 | The initial language is `InitialLanguage` of the stored entry. |
| `LanguageContext.LanguageProvider.Mount` | src/contexts/LanguageContext.tsx:45-50 | The mount effect adopts the stored value only when it is a listed code, and otherwise changes nothing. |
| `LanguageContext.LanguageProvider.T` | src/contexts/LanguageContext.tsx:40-43 | The `t` the provider hands out answers from the current language's entry when it is non-empty. Otherwise it answers exactly what an English provider would. It is never empty for a non-empty key. |
| `LanguageContext.LanguageProvider.SetLanguage` | src/contexts/LanguageContext.tsx:35-38 | `setLanguage(l)` makes `l` the language and stores exactly its code. |
| `LanguageContext.SelectThenReload` | src/contexts/LanguageContext.tsx:30-50 | Choosing a language, then reloading and mounting a fresh provider, yields the chosen code. |
| `Register.DigitField` | src/pages/Register.tsx:69 | The filtered field holds only digits and is a prefix of the input's digits. It is at most `width` long, and is cut short only when there were more digits than `width`. |
| `Register.DigitFieldIdempotent` | src/pages/Register.tsx:69 | Filtering a filtered value changes nothing. |
| `Register.DigitFieldFullIsStable` | src/pages/Register.tsx:69 | Once the field is full, typing more characters leaves it unchanged. |
| `Register.PhoneInput` | src/pages/Register.tsx:69 | The phone field holds at most 10 digits, a prefix of the input's digits. It is cut short only at 10; otherwise it holds all of them. |
| `Register.PasscodeInput` | src/pages/Register.tsx:78 | The passcode field holds at most 4 digits, a prefix of the input's digits. It is cut short only at 4; otherwise it holds all of them. |
| `Register.NextStep` | src/pages/Register.tsx:29-40 | Continue either keeps the step or advances it by exactly one. It advances exactly when one guard holds: the trimmed name is non-blank at `name`, the phone is 10 long at `phone`, or the passcode is 4 long at `passcode`. |
| `Register.Prompt` | src/pages/Register.tsx:20-27 | Each step's prompt is its key translated, never empty. |
| `Register.PromptKeysDistinct` | src/pages/Register.tsx:20-27 | Different steps use different prompt keys. |
| `Register.Registration.constructor` | src/pages/Register.tsx:15-18 | The wizard starts at `name` with empty fields, in a valid state. |
| `Register.Registration.EditName` | src/pages/Register.tsx:61 | The name input stores its value as typed. |
| `Register.Registration.EditPhone` | src/pages/Register.tsx:69 | The phone input stores the filtered value. |
| `Register.Registration.EditPasscode` | src/pages/Register.tsx:78 | The passcode input stores the filtered value. |
| `Register.Registration.Continue` | src/pages/Register.tsx:29-40 | The step moves to `NextStep` and never backward, and the fields are unchanged. The profile, untrimmed, is saved exactly on the move from passcode to success. From success, continue only navigates. The invariant is kept: digit-only fields, the guards of every passed step, and a saved profile equal to the fields at success. |
| `Register.SavedProfileIsComplete` | src/pages/Register.tsx:34-36 | At success the saved profile has a non-blank name, a 10-digit phone and a 4-digit passcode. |
| `Speech.SpeechLang` | src/hooks/useSpeech.ts:32 | A language code gets its `xx-IN` locale; anything else gets `en-IN`. |
| `Speech.SpeechLangCoversListed` | src/hooks/useSpeech.ts:4-16 | The speech table covers exactly the languages of the language context. |
| `Speech.PrimarySubtag` | src/hooks/useSpeech.ts:101 | `split('-')[0]` is the prefix of the tag before its first hyphen. |
| `Speech.PrimarySubtagOfSpeechLang` | src/hooks/useSpeech.ts:101 | For each language, the primary subtag of its locale is its own code. |
| `Speech.FirstVoiceWithPrefix` | src/hooks/useSpeech.ts:101 | `find` returns the first voice whose `lang` starts with the prefix. No earlier voice matches, and it returns none only when no voice matches. |
| `Speech.ChooseVoice` | src/hooks/useSpeech.ts:100-102 | The chosen voice is one of the platform's voices and matches the locale's primary subtag. It is the first such voice in the list: no earlier voice matches. No voice is chosen only when none matches. |
| `Speech.SpeechHook.constructor` | src/hooks/useSpeech.ts:28-30 | Both flags start false, with no recognizer and nothing queued. The invariant that the hook listens only with a recognizer holds from the start, and every event method keeps it. |
| `Speech.SpeechHook.StartListening` | src/hooks/useSpeech.ts:34-71 | Without the API, `onError` (when given) gets the not-supported message and nothing starts. Otherwise a recognizer is created in the language's locale: single result, no interim results, not continuous. |
| `Speech.SpeechHook.RecognitionStarted` | src/hooks/useSpeech.ts:49-51 | The start event sets `isListening`. |
| `Speech.SpeechHook.RecognitionResult` | src/hooks/useSpeech.ts:53-57 | A result hands the transcript to `onResult` and clears `isListening`. |
| `Speech.SpeechHook.RecognitionError` | src/hooks/useSpeech.ts:59-63 | An error goes to `onError` when given and clears `isListening`. |
| `Speech.SpeechHook.RecognitionEnded` | src/hooks/useSpeech.ts:65-67 | The end event clears `isListening`. |
| `Speech.SpeechHook.StopListening` | src/hooks/useSpeech.ts:73-78 | With no recognizer ever created, this is a no-op. Otherwise it stops the recognizer and clears `isListening`. |
| `Speech.SpeechHook.Speak` | src/hooks/useSpeech.ts:80-105 | Without synthesis, nothing happens. Otherwise everything queued is cancelled, then exactly one utterance is queued: in the locale, rate 0.9, pitch 1, with the matching voice. |
| `Speech.SpeechHook.UtteranceStarted` | src/hooks/useSpeech.ts:93 | Utterance start sets `isSpeaking`. |
| `Speech.SpeechHook.UtteranceEnded` | src/hooks/useSpeech.ts:94-97 | Utterance end clears `isSpeaking`, then calls `onEnd` when it was given. |
| `Speech.SpeechHook.UtteranceFailed` | src/hooks/useSpeech.ts:98 | Utterance error clears `isSpeaking` without calling `onEnd`. |
| `Speech.SpeechHook.StopSpeaking` | src/hooks/useSpeech.ts:107-110 | With synthesis present, the queue is cancelled and `isSpeaking` cleared. Without it, the call throws before clearing. |
| `ChatInput.Outgoing` | src/components/ChatInput.tsx:19-24 | Send emits nothing exactly when the text is all whitespace. Otherwise it emits a non-empty infix of the text with no whitespace at either end, and everything around that infix is whitespace. |
| `ChatInput.SendsTrimmedHello` | src/components/ChatInput.tsx:19-24 | `"  hello  "` is sent as `"hello"`. |
| `ChatInput.AppendTranscript` | src/components/ChatInput.tsx:39 | The transcript is appended after the previous text, joined by exactly one space only when that text was non-empty. |
| `ChatInput.ListeningDisablesInput` | src/components/ChatInput.tsx:66 | The text field is disabled while listening. Apart from the prop, only listening disables it. |
| `ChatInput.SendEnabledIffEmits` | src/components/ChatInput.tsx:75 | The send button is enabled exactly when the prop allows it and a click would emit a message. |
| `ChatInput.ComposeBar.constructor` | src/components/ChatInput.tsx:15 | The field starts empty and nothing has been sent. |
| `ChatInput.ComposeBar.Edit` | src/components/ChatInput.tsx:63-66 | Typing, possible only while the field is enabled (neither `disabled` nor listening), replaces the field's content. |
| `ChatInput.ComposeBar.HandleSend` | src/components/ChatInput.tsx:19-24 | Non-blank text emits its trim exactly once and clears the field. Blank text emits nothing and keeps the field. |
| `ChatInput.ComposeBar.HandleKeyPress` | src/components/ChatInput.tsx:26-31 | Key presses reach the handler only while the field is enabled. Enter without Shift sends. Shift+Enter and other keys change nothing. |
| `ChatInput.ComposeBar.HandleMicClick` | src/components/ChatInput.tsx:33-46 | The button can be clicked only when `disabled` is off. While listening, a click stops the session's recognizer and clears the flag. Otherwise it starts a new session with an error callback and leaves the flag to the start event. Synthesis is untouched, and the hook's invariant (listening only with a recognizer) is kept. |
| `ChatInput.ComposeBar.SpeechResult` | src/components/ChatInput.tsx:37-40 | A recognised transcript is appended to the field and listening ends. |
| `ImageUploader.CheckFile` | src/components/ImageUploader.tsx:24-38 | A file is accepted exactly when it exists, its type starts with `image/`, and its size is at most 5·1024·1024. The type is tested before the size: a non-image is `NotAnImage` whatever its size, and an image over that size is `TooLarge`, each exactly so. |
| `ImageUploader.FileCheckBoundaries` | src/components/ImageUploader.tsx:35 | `text/plain` is rejected as not an image. Exactly 5 MiB passes, and one byte more is too large. |
| `ImageUploader.RejectionToast` | src/components/ImageUploader.tsx:29-38 | A toast, without a description, is raised exactly for a non-image or an oversized file. |
| `ImageUploader.FailureDescription` | src/components/ImageUploader.tsx:85 | The failure toast shows the error's message, or `Please try again` when the message is empty. |
| `ImageUploader.Uploader.constructor` | src/components/ImageUploader.tsx:19-21 | No preview, both flags false, nothing sent, delivered or toasted. |
| `ImageUploader.Uploader.SelectFile` | src/components/ImageUploader.tsx:24-44 | No file is a no-op. A non-image or an oversized file appends its `RejectionToast` and keeps the preview. An accepted file becomes the preview and raises no toast. |
| `ImageUploader.Uploader.Analyze` | src/components/ImageUploader.tsx:46-92 | With no preview, nothing happens. Otherwise the function is invoked with `(imageUrl, analysisType, language)` exactly when conversion and upload succeed. `onAnalysisComplete` is called exactly once, only when every step succeeds. Each failure raises one toast with its description. The flags read (uploading, analysing), then (analysing) only after a successful upload, then both false. |
| `ImageUploader.Uploader.ClearImage` | src/components/ImageUploader.tsx:94-97 | The preview becomes null. |
| `AnalyzeCrop.LanguageInstruction` | supabase/functions/analyze-crop/index.ts:37 | The directive is the table's entry for the eleven codes, and the English directive for any other or absent language. |
| `AnalyzeCrop.LanguageInstructionAsWritten` | supabase/functions/analyze-crop/index.ts:37 | The lookup as written agrees with the intended one on every language that is not an inherited property name. |
| `AnalyzeCrop.InheritedLanguageSkipsFallback` | supabase/functions/analyze-crop/index.ts:37 | For the unlisted language `toString`, the lookup as written yields a function's source text instead of the English directive. |
| `AnalyzeCrop.ConstructorLanguageSkipsFallback` | supabase/functions/analyze-crop/index.ts:37 | For the unlisted language `constructor`, the lookup as written yields `function Object() { [native code] }` instead of the English directive. |
| `AnalyzeCrop.KindOf` | supabase/functions/analyze-crop/index.ts:41-91 | `pest`, `soil` and `disease` each select their own template, exactly on those values. |
| `AnalyzeCrop.SystemPrompt` | supabase/functions/analyze-crop/index.ts:41-91 | The prompt is the selected template followed by, and ending with, the language directive. |
| `AnalyzeCrop.PreamblesDistinct` | supabase/functions/analyze-crop/index.ts:41-91 | The four templates are pairwise different. |
| `AnalyzeCrop.PromptsDistinct` | supabase/functions/analyze-crop/index.ts:41-91 | Different prompt kinds give different prompts for the same directive. |
| `AnalyzeCrop.HindiPestPrompt` | supabase/functions/analyze-crop/index.ts:23-54 | A pest request in Hindi carries the pest template and the Hindi directive. |
| `AnalyzeCrop.AnalysisText` | supabase/functions/analyze-crop/index.ts:141 | The analysis is the first choice's content when it is present and non-empty, and `Unable to analyze image` otherwise. |
| `AnalyzeCrop.ReplyResponse` | supabase/functions/analyze-crop/index.ts:120-156 | A gateway 429 maps to 429 with the rate-limit message, and 402 to 402 with the credits message. Any other non-ok status maps to 500 with `AI gateway error: <status>`. Success maps to 200 with the analysis. An unreachable gateway or an unparsable success body gives the catch block's 500 with the error's message. Every response carries the CORS and JSON headers, and the status is one of 200, 402, 429, 500. |
| `AnalyzeCrop.Handle` | supabase/functions/analyze-crop/index.ts:8-157 | Line 37's directive is the corrected `LanguageInstruction`, not the lookup as written (see Findings). OPTIONS returns a null body with the CORS headers, and nothing else happens. The gateway is called exactly when the body parses and the key is set. An unreadable body, or a missing or empty key, gives 500 with the error's message. The forwarded request carries the selected prompt, the image URL and the bearer key. Every response includes the CORS headers. |
| `AnalyzeCrop.RateLimitDistinctFromGenericFailure` | supabase/functions/analyze-crop/index.ts:124-137 | The 429 message differs from the message for a gateway 500, and the latter is sent with status 500. |
| `Dashboard.FeatureIdsDistinct` | src/pages/Dashboard.tsx:23-30 | There are six features, with pairwise distinct ids, and every feature is listed. |
| `Dashboard.ReplyText` | src/pages/Dashboard.tsx:43 | The simulated reply quotes the user's message verbatim between double quotes. |
| `Dashboard.ReplyTextInjective` | src/pages/Dashboard.tsx:43 | Different messages get different replies. |
| `Dashboard.FeatureGreeting` | src/pages/Dashboard.tsx:34 | A feature's greeting is the translated greeting, one space, then the translated feature title. |
| `Dashboard.DashboardPage.constructor` | src/pages/Dashboard.tsx:16-17 | The list starts empty, with no active feature and no scheduled reply. |
| `Dashboard.DashboardPage.ResetGreeting` | src/pages/Dashboard.tsx:19-21 | When `t` changes, the list becomes the single greeting message. |
| `Dashboard.DashboardPage.HandleFeatureClick` | src/pages/Dashboard.tsx:32-36 | The feature's id becomes active, and the list becomes its single greeting message. |
| `Dashboard.DashboardPage.HandleSend` | src/pages/Dashboard.tsx:38-39 | Exactly one user message is appended, earlier messages are unchanged, and its reply is scheduled. |
| `Dashboard.DashboardPage.ReplyArrives` | src/pages/Dashboard.tsx:41-46 | The oldest scheduled reply appends exactly one assistant message quoting its message. |
| `Dashboard.DashboardPage.Back` | src/pages/Dashboard.tsx:54 | The back button clears the active feature and leaves the messages alone. |
| `Dashboard.Exchange` | src/pages/Dashboard.tsx:38-47 | A send followed by its reply appends exactly the user's message and a reply quoting it. The active feature is unchanged. |

## Left out

- JSX rendering, styling and animation, and the purely presentational files `Index.tsx`, `FeatureCard.tsx`, `LanguageSelector.tsx` (it only forwards to `setLanguage`) and `ChatMessage.tsx` (its speak/stop toggle is thin glue over the speech hook).
- Browser APIs are not modelled themselves; each event they raise is a method. The model does not cover a cancelled utterance's own `end`/`error` events or events of a superseded recognizer. It also leaves out `recognition.start()` throwing when a session is already running.
- `Speech.SpeechHook.Speak`: takes `getVoices()` as a parameter, and leaves out the platform's queueing beyond one cancel followed by one enqueue.
- `ImageUploader.Uploader.SelectFile`: the file reader's asynchronous `load` is taken as immediate. Resetting the hidden file input's value in `clearImage` is left out.
- The generated storage file name (time plus random suffix) and `getPublicUrl` are not modelled: the public URL is a parameter.
- JSON parsing and serialisation are left out. The stored profile is a record, not its JSON text. Body fields of the edge function are strings or absent, not arbitrary JSON values.
- The prompt templates are represented by their first sentence. The rest of each template's prose is not reproduced.
- The catch block's `"Analysis failed"` fallback for thrown non-`Error` values is left out: every modelled failure carries a message. Reading the error text of a failed gateway response (`response.text()`) is left out too.
- Console logging.
- React scheduling. `t` is a new function on every render of the provider, so the dashboard's greeting reset can fire on any provider re-render; the model makes it an explicit event. The reply delay is also an event; replies fire oldest first.
- Client-side table lookups (`t`'s translation tables, the speech-locale table) are own-property lookups in the model. The inherited `Object.prototype` members a tampered stored language could reach are not modelled there.
- `ChatInput.ComposeBar.HandleMicClick`: the speech error callback only logs, so the model drops its notice.

## Findings

| source | as written | input that shows it | evidently intended | confidence | as-written member | corrected member |
|---|---|---|---|---|---|---|
| supabase/functions/analyze-crop/index.ts:37 | `languageInstructions[language] \|\| languageInstructions.en` reads inherited `Object.prototype` members, which are truthy | `language: "toString"` (also `"constructor"`, `"valueOf"`, …) gives the directive `function toString() { [native code] }` (`function Object() { [native code] }` for `"constructor"`) | any language outside the eleven codes falls back to the English directive | not executed; medium (relies on V8's rendering of built-in functions) | `AnalyzeCrop.LanguageInstructionAsWritten`, `AnalyzeCrop.InheritedLanguageSkipsFallback`, `AnalyzeCrop.ConstructorLanguageSkipsFallback` | `AnalyzeCrop.LanguageInstruction` (used by `AnalyzeCrop.Handle`) |
