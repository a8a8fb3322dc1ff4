# Portfolio site: chat gate, contact form and language handling

This project models, in Dafny, the parts of a personal portfolio site that make decisions:

- **The chat endpoint's gate** (`ChatGate`, over `Text` and `Patterns`). A POST handler checks,
  in order:
  1. that the language-model credential is configured;
  2. that the message is present and not blank;
  3. that the message matches none of 135 case-insensitive blocklist patterns.

  It then forwards the system prompt, the last five prior turns and the message to the
  language-model service. It accepts the reply only if, lowered, the reply contains a refusal
  phrase or one of 35 required keywords. Otherwise the reply is replaced by a canned rejection
  in the request's language. The service is an oracle: a function from the message list to a
  completion outcome.
- **The blocklist patterns** (`Patterns`). They are modelled in the four shapes the list uses:
  - a literal;
  - a literal followed by a negative lookahead over alternatives;
  - a literal followed by a negative lookahead over `\s+word`;
  - `first.*last`.

  Each shape has a declarative meaning (`Matches`) and the left-to-right search that
  `RegExp.prototype.test` performs, and the two are proved equal.
- **The contact form** (`ContactForm`). This covers the field checks of the submit handler,
  including the email pattern: an executable check is proved equal to the pattern's
  declarative shape. It also covers the form's status as a class with its transitions, and
  the submit button's labels.
- **The language provider** (`Languages`, `LanguageContext`). The provider is a class:
  - its language starts as English;
  - mounting adopts a stored "en"/"ar" or writes "en";
  - after mount, language changes are mirrored to storage and to the document's
    `lang`/`dir`.

  `t` is a translation lookup that falls back to the key, and `dir` is right-to-left exactly
  for Arabic.
- **The two translation tables.** `I18n` covers `src/i18n/translations.ts`: 48 keys looked up
  by property name. `SiteTranslations` covers `src/translations/index.ts`: 17 keys, total by
  construction.

## Model

| member | source | states |
|---|---|---|
| Text.LowerChar | src/app/api/chatbot/route.ts:31 | the lowered code unit is never upper-case; it differs from the input only for an upper-case letter, which maps to the code unit 32 above it |
| Text.ToLower | src/app/api/chatbot/route.ts:31 | `toLowerCase` keeps the length and lowers every code unit in place |
| Text.ToLowerAppend | src/app/api/chatbot/route.ts:31 | lowering a concatenation is concatenating the lowered parts |
| Text.ToLowerIdempotent | src/app/api/chatbot/route.ts:31 | lowering twice is lowering once |
| Text.TrimStart | src/app/api/chatbot/route.ts:167 | the result is a suffix of the input, what it drops is all white space, and it does not start with white space |
| Text.TrimEnd | src/app/api/chatbot/route.ts:167 | the result is a prefix of the input, what it drops is all white space, and it does not end with white space |
| Text.TrimCutsEnds | src/app/api/chatbot/route.ts:167 | trimming both ends cuts a white-space prefix and a white-space suffix from the input and nothing else |
| Text.Trim | src/app/api/chatbot/route.ts:167 | the trimmed string is a contiguous piece of the input: only white space is cut, only from the two ends, and it neither starts nor ends with white space |
| Text.TrimEmptyIffBlank | src/app/api/chatbot/route.ts:167 | `s.trim()` is empty exactly when every code unit of `s` is white space or a line terminator |
| Text.IncludesFrom | src/app/api/chatbot/route.ts:34-35 | the search from index `i` succeeds exactly when the pattern occurs at some index at or after `i` |
| Text.Includes | src/app/api/chatbot/route.ts:34-35 | `includes` succeeds exactly when the pattern occurs somewhere |
| Patterns.SpacesThen | src/app/api/chatbot/route.ts:70 | the step-by-step match of `\s+word` agrees with its declarative meaning |
| Patterns.GapThen | src/app/api/chatbot/route.ts:52 | the step-by-step match of `.*last` agrees with its declarative meaning (no line terminator in the gap) |
| Patterns.AnyPrefixAt | src/app/api/chatbot/route.ts:49 | one of the lookahead's alternatives occurs at the index exactly when the scan reports it |
| Patterns.MatchAt | src/app/api/chatbot/route.ts:48-81 | matching at one start index agrees with the declarative meaning, for every pattern shape |
| Patterns.SearchFrom | src/app/api/chatbot/route.ts:86 | trying start indices left to right succeeds exactly when some start index at or after `i` matches |
| Patterns.Test | src/app/api/chatbot/route.ts:86 | `pattern.test(message)` holds exactly when the pattern matches somewhere in the message |
| Patterns.TestAny | src/app/api/chatbot/route.ts:86 | `patterns.some(p => p.test(m))` holds exactly when some pattern of the list matches |
| Patterns.LookaheadSparesSubject | src/app/api/chatbot/route.ts:49 | `/what is (?!haian)/i` does not match "What is Haian?" |
| Patterns.LookaheadCatchesOther | src/app/api/chatbot/route.ts:49 | `/what is (?!haian)/i` matches "What is React?" |
| ChatGate.SomeKeyword | src/app/api/chatbot/route.ts:40-42 | the keyword scan succeeds exactly when some lowered keyword occurs in the lowered reply |
| ChatGate.IsValidHaianResponse | src/app/api/chatbot/route.ts:30-43 | a reply is accepted exactly when, lowered, it contains either refusal phrase or some lowered required keyword |
| ChatGate.ContainsForbiddenContent | src/app/api/chatbot/route.ts:85-87 | the pre-filter fires exactly when some blocklist pattern matches the message |
| ChatGate.RejectionMessage | src/app/api/chatbot/route.ts:90-95 | the Arabic rejection exactly when the language is "ar", the English one for every other value |
| ChatGate.RejectionEnPasses | src/app/api/chatbot/route.ts:34-94 | the English rejection, lowered, contains the English refusal phrase |
| ChatGate.RejectionArPasses | src/app/api/chatbot/route.ts:35-92 | the Arabic rejection, lowered, contains the Arabic refusal phrase |
| ChatGate.RejectionPassesValidator | src/app/api/chatbot/route.ts:34-95 | both canned rejections pass the post-validator, so the fallback is a fixed point |
| ChatGate.LastEntries | src/app/api/chatbot/route.ts:190 | `slice(-5)` keeps the last min(5, n) entries, in order |
| ChatGate.SystemPromptSuffix | src/app/api/chatbot/route.ts:183-188 | the system prompt is the instruction prompt followed by a suffix, and the suffix asks for Arabic exactly when the language is "ar" |
| ChatGate.AsTurns | src/app/api/chatbot/route.ts:190-193 | the history maps entry by entry to upstream turns with the same role and content |
| ChatGate.UpstreamMessages | src/app/api/chatbot/route.ts:182-198 | the list has min(5, n) + 2 entries: the system prompt first, the last five prior turns in order, the user's message last |
| ChatGate.Route | src/app/api/chatbot/route.ts:156-198 | for any pre-filter, the request is forwarded only with a configured key and a parsed body; a local 200 always carries the rejection for the request's language; with a configured key, a null or unparsable body gets the generic 500 |
| ChatGate.Finish | src/app/api/chatbot/route.ts:209-244 | a 200 after the call carries either the rejection or exactly the service's reply, and then the reply passes the post-validator; an API error gets the "OpenAI API error" 500, and a thrown call or an absent or empty reply gets the "Failed to process request" 500 |
| ChatGate.Post | src/app/api/chatbot/route.ts:156-246 | a missing key yields the 500 before anything else; with a key, a null or unparsable body gets the generic 500 and no call; the service is called at most once; every 200 carries either the rejection for the request's language or the reply the single call returned, which then passes the post-validator |
| ChatGate.RouteBlankMessage | src/app/api/chatbot/route.ts:167-172 | for any pre-filter, with a configured key, a missing or all-white-space message is answered with the 400 |
| ChatGate.RouteBlockedMessage | src/app/api/chatbot/route.ts:175-179 | with a configured key and a non-blank message, a message the pre-filter flags is answered 200 with the rejection for its language |
| ChatGate.RouteMissingHistory | src/app/api/chatbot/route.ts:167-244 | with a configured key and a present, non-blank message the pre-filter lets through, a missing history makes the handler throw, which ends in the generic 500 |
| ChatGate.RouteForwardsIffAdmitted | src/app/api/chatbot/route.ts:158-198 | for any pre-filter, the request is forwarded exactly when the key is configured and the message is present, not blank, not flagged, with a history; the list forwarded is the upstream message list |
| ChatGate.BlankMessageRejected | src/app/api/chatbot/route.ts:167-172 | a missing or blank message gets the 400 and no service call |
| ChatGate.ForbiddenMessageRejected | src/app/api/chatbot/route.ts:175-179 | a blocklisted message gets the rejection for its language and no service call |
| ChatGate.ForwardsExactlyWhenAdmitted | src/app/api/chatbot/route.ts:156-222 | the service is called exactly for admitted requests, once, with the upstream message list, and the response is what the reply check makes of the completion |
| ChatGate.FinishOutcomes | src/app/api/chatbot/route.ts:209-244 | after the call the status is 200 or 500; it is 200 exactly when a non-empty reply came back, and the reply is passed on exactly when it passes the post-validator; the "OpenAI API error" body comes exactly from an API error, every other 500 is "Failed to process request" |
| ChatGate.CareerQuestionForbidden | src/app/api/chatbot/route.ts:48 | "How do I become a developer like you?" matches `/how do i/i` |
| ChatGate.CareerQuestionRejected | src/app/api/chatbot/route.ts:175-179 | that question, in English, is answered with the English rejection and no service call |
| ChatGate.OnTopicQuestionForbidden | src/app/api/chatbot/route.ts:54 | the blocklist also rejects the on-topic question "What projects has Haian developed?" (through `/develop/i`) |
| Languages.Code | src/contexts/language-context.tsx:6 | a language's code is "en" or "ar", and "ar" exactly for Arabic |
| Languages.ParseLanguage | src/contexts/language-context.tsx:56 | exactly "en" and "ar" are accepted, each as the language whose code it is |
| Languages.ParseCode | src/contexts/language-context.tsx:28-41 | a stored code parses back to the language it was written for |
| Languages.DirectionOf | src/contexts/language-context.tsx:44 | the direction is right-to-left exactly for Arabic |
| Languages.DirectionCode | src/contexts/language-context.tsx:46 | the `dir` value is "rtl" exactly for right-to-left |
| Languages.ToggleCode | src/components/language-toggle.tsx:33 | the toggle asks for a code that is accepted and names the other language |
| Languages.ToggleTwice | src/components/language-toggle.tsx:33 | toggling twice comes back to the starting language |
| LanguageContext.Translate | src/contexts/language-context.tsx:62-66 | `t` returns the key itself when no declared key has that name, and otherwise the current language's entry for a key of that name |
| LanguageContext.UndeclaredKeysComeBack | src/contexts/language-context.tsx:62-66 | `t("chatbot.welcome")` and `t("skillsDescription")` return the keys unchanged, in both languages |
| LanguageContext.LanguageProvider.constructor | src/contexts/language-context.tsx:19-20 | the provider starts in English, not mounted, with nothing written yet |
| LanguageContext.LanguageProvider.Sync | src/contexts/language-context.tsx:39-52 | once mounted, storage, `lang` and `dir` show the current language; before mount nothing is written |
| LanguageContext.LanguageProvider.Mount | src/contexts/language-context.tsx:23-37 | a stored "en"/"ar" is adopted, anything else keeps the language; afterwards the provider is mounted and mirrored |
| LanguageContext.LanguageProvider.SetLanguage | src/contexts/language-context.tsx:54-59 | only "en" and "ar" change the language, to the one they name; mirroring is kept after mount |
| LanguageContext.LanguageProvider.Toggle | src/components/language-toggle.tsx:32-34 | the toggle always switches to the other language and keeps the provider valid; before mount it writes neither storage nor the document |
| LanguageContext.LanguageProvider.Dir | src/contexts/language-context.tsx:72 | `dir` is right-to-left exactly when the language is Arabic |
| LanguageContext.FirstMount | src/contexts/language-context.tsx:19-37 | after the first render and the mount effect, a valid stored preference is the language; otherwise the page is English and "en" is stored |
| I18n.English | src/i18n/translations.ts:58-107 | every declared key has a non-empty English entry |
| I18n.Arabic | src/i18n/translations.ts:108-157 | every declared key has a non-empty Arabic entry |
| I18n.Translation | src/i18n/translations.ts:57-157 | the table is indexed by the two languages, and every entry is non-empty, so `t` never falls back for a declared key |
| I18n.Ordinal | src/i18n/translations.ts:3-51 | every key has a position in the declared list |
| I18n.AllKeys | src/i18n/translations.ts:3-51 | the enumerated list holds every declared key |
| I18n.FindKey | src/contexts/language-context.tsx:63 | the search by property name finds a key with that name, or reports that none of the keys has it |
| I18n.Lookup | src/contexts/language-context.tsx:63 | the lookup by name misses exactly when no declared key has that name, and otherwise yields that language's entry for a key of that name |
| I18n.ChatbotWelcomeUndeclared | src/i18n/translations.ts:3-51 | no declared key is named "chatbot.welcome" |
| I18n.SkillsDescriptionUndeclared | src/i18n/translations.ts:3-51 | no declared key is named "skillsDescription" |
| I18n.UndeclaredKeysHaveNoEntry | src/i18n/translations.ts:3-51 | neither name has an entry in either language |
| SiteTranslations.KeyNamesDistinct | src/translations/index.ts:3-20 | the seventeen property names of the key union are pairwise different |
| SiteTranslations.English | src/translations/index.ts:29-47 | all 17 keys have a non-empty English entry |
| SiteTranslations.Arabic | src/translations/index.ts:48-66 | all 17 keys have a non-empty Arabic entry |
| SiteTranslations.GetTranslation | src/translations/index.ts:69-71 | `getTranslation` is total over keys and languages and never yields an empty string |
| ContactForm.ProblemText | src/components/contact-form.tsx:47-57 | every error text is non-empty |
| ContactForm.ProblemTextInEnglishIffEn | src/components/contact-form.tsx:47-57 | an error is shown in English (all ASCII) exactly when the language is "en" |
| ContactForm.ProblemTextsDistinct | src/components/contact-form.tsx:50-54 | in either language the four error texts differ, so "required" and "invalid" can be told apart |
| ContactForm.SplitIsCanonical | src/components/contact-form.tsx:52 | any split the email pattern accepts is at the first `@` and the last `.` |
| ContactForm.ShapedIffCanonicalSplit | src/components/contact-form.tsx:52 | the pattern matches exactly when the split at the first `@` and last `.` is acceptable |
| ContactForm.IsValidEmail | src/components/contact-form.tsx:52 | the email check holds exactly when the whole string is local part, `@`, domain, `.`, two or more letters |
| ContactForm.ShapedIsNotMissing | src/components/contact-form.tsx:50-54 | an address the pattern accepts is never blank |
| ContactForm.Validate | src/components/contact-form.tsx:44-58 | a name or message error exactly when that field is missing or blank; "Email is required" exactly for a missing email, "Invalid email address" exactly for a present one the pattern rejects, no email error exactly for one it accepts |
| ContactForm.ButtonText | src/components/contact-form.tsx:122-133 | every label is non-empty |
| ContactForm.ButtonTextInEnglishIffEn | src/components/contact-form.tsx:122-133 | the label is in English (all ASCII) exactly when the language is "en" |
| ContactForm.ButtonTextsDistinct | src/components/contact-form.tsx:122-133 | in either language the four statuses have four different labels |
| ContactForm.Form.constructor | src/components/contact-form.tsx:13-18 | the form starts idle with no errors |
| ContactForm.Form.Submit | src/components/contact-form.tsx:40-67 | it sends exactly when validation finds nothing; with errors, it shows them and leaves the status; otherwise it clears them and moves to submitting |
| ContactForm.Form.Settle | src/components/contact-form.tsx:79-106 | an accepted send shows success, a rejected or failed one shows the error; the errors are kept |
| ContactForm.Form.TimerElapsed | src/components/contact-form.tsx:96-97 | after the delay the form returns to idle |

## Left out

- The language-model call is an oracle. The model does not include the client, the model name
  or the sampling parameters.
- The instruction prompt's long text is replaced by a short stand-in, because its wording plays
  no part in the gate's decisions.
- Request JSON parsing is not modelled. A body that is not JSON, or is JSON `null`, is `None`;
  destructuring it throws, so it gets the generic 500. Any other JSON value that is not an
  object (a number, string, boolean or array) destructures without throwing. It is modelled as a
  request whose properties are all absent, so it gets the 400. An absent or null property is
  `None`. Property values of the wrong type (a number as message, a non-array history, a history
  entry that is not an object) are not modelled.
- ChatGate.HistoryMessage admits only the roles `user` and `assistant`. The handler casts the
  client's role string without checking it, so a history entry with role `system` (or any other
  string) is forwarded to the service as sent. The model does not capture that.
- The JSON response is modelled only as its status and body. `NextResponse` and headers are
  not modelled.
- Logging (`console.log`, `console.error`) is not modelled.
- Unicode case mapping beyond ASCII and Latin-1 is not modelled. For example, `toLowerCase`
  maps U+0130 to two code units and U+212A to `k`, and the model leaves both unchanged. These
  can matter only to the reply check's `includes`. The blocklist's `i` flag never maps a
  non-ASCII code unit onto an ASCII one, so there the model is exact.
- Regular expressions are modelled only in the four shapes the blocklist uses. The engine is
  not modelled in general.
- I18n.Lookup does not prove that the 48 property names are distinct. An object literal
  guarantees this, but the proof was left out. So a successful lookup is shown to return the
  entry of *a* key with that name.
- LanguageContext.Translate inherits that weakening.
- I18n.Lookup covers only the table's own properties. In JavaScript, a name every object
  inherits (such as `constructor`, `toString` or `__proto__`) finds the inherited member, which
  is not a string. The model treats those names as absent.
- LanguageContext.Translate therefore returns such a name unchanged, whereas `t("constructor")`
  returns a function in the running code.
- React's render cycle is not modelled. Each effect is a method, and `Mount` runs the second
  effect itself, as the state change it makes would. `Sync` runs only when the language
  actually changes, as the effect's dependency list makes it.
- `document.documentElement` and `localStorage` are fields of the provider.
- The contact form's send is not modelled. The Formspree `fetch` and `form.reset()` become
  the event `Settle(accepted)`.
- The form's timers are not modelled. The five-second delays become the event
  `TimerElapsed`, and the modal's close callback is left out.
- ContactForm.Form.Submit: the submit button and fields are disabled while submitting, and the
  model does not restrict when `Submit` may be called.
- The form's entrance, success and error animations are not modelled.
- The chat widget's `sendMessage` and the other page components (sections, navigation,
  theme and scroll handling) are not part of this model.
