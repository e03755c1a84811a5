# A verified model of the medical assistant's core logic

The repository is a medical assistant: a Python back end that talks to a
language model, and a React Native front end. This project models four
self-contained pieces of it in Dafny and proves what they do.

- **Symptom extraction** (`symptoms.dfy`, module `Symptoms`). The twelve
  symptom categories, each with its labels in declaration order. `get_symptoms`,
  `symptoms_in_message` and `parse_for_symptoms` keep every label that occurs,
  ignoring case, as a substring of a message, and report a category when at
  least one of its labels was found. `symptoms_examples.dfy` (module
  `SymptomsExamples`) works out the two conversations of the test suite.
- **A conversation turn** (`messages.dfy`, module `Messages`; `chat.dfy`,
  module `Chat`). The message store is a class whose `Save` method sets
  `created_at` only when the document has none. `get_messages_by_user`
  selects the user's history window and adds the timestamp to each entry.
  `Sana.chat` builds the preamble of system instructions, sends preamble,
  window and new turn to the language model, and stores the turns. The
  language model is a parameter: a function from the prompt to a reply or a
  raised error.
- **Form validation** (`validation.dfy`, module `Validation`). The predefined
  rules, with every regular expression written out as explicit character
  classes. The class `FormValidator` has `validateField`, where the first
  error wins, and `validateForm`. The class `FormState` keeps the hook's
  `errors` and `touched` maps.
- **Session persistence** (`session.dfy`, module `Session`). The four storage
  keys, the 24-hour expiry unless "remember me" is set, and the five
  `SessionManager` operations. They are functions of the store, and they are
  also methods of a class whose field is the store.

Three support modules:

- `wrappers.dfy`: `Option` and `Result`.
- `decimal.dfy`: decimal rendering of numbers.
- `js_text.dfy`: the JavaScript text operations the front end relies on:
  - the white-space class of sections 12.2 and 12.3 of ECMA-262;
  - `trim` and `replace(/\s/g, "")`;
  - `parseInt` as section 19.2.5 of ECMA-262 defines it.

The history window is modelled as the code is written, not as its first
line intends. Line 28 of backend/core/models/message.py sorts descending and
limits to 16, and line 29 sorts the same query again, ascending. In
mongoengine a second `order_by` replaces the first, and MongoDB sorts before
it limits. So the query returns the user's 16 **oldest** turns, oldest first.
`Messages.Window` is that selection, and `Messages.NewestLeftOutWhenFull`
proves the consequence: once a user has more than 16 turns, the newest one is
not shown to the model. The count-based properties of `chat` hold either way.

## Model

| member | source | states |
|---|---|---|
| Symptoms.TaxonomyWellFormed | backend/core/utils/symptoms.py:8-151 | There are twelve categories, with distinct names. Within each category the labels are distinct upper-case texts, so iterating the enum yields every declared label and none is an alias. |
| Symptoms.GeneralSymptomsWellFormed | backend/core/utils/symptoms.py:8-136 | The labels of this category are distinct and in canonical upper-case form. The same holds for the eleven other `…WellFormed` lemmas, one per category. |
| Symptoms.MatchedSymptoms | backend/core/utils/symptoms.py:168-189 | A label is in the result exactly when it is one of the given labels and the lower-cased message contains it; the result is never longer than the input. |
| Symptoms.MentionedPositions | backend/core/utils/symptoms.py:182-189 | Lists, in increasing order, exactly the positions of the given labels that the message mentions. |
| Symptoms.MatchedIsMentionedSubsequence | backend/core/utils/symptoms.py:168-189 | The match is the subsequence of the input labels at the mentioned positions, in input order. |
| Symptoms.MatchedAppend | backend/core/utils/symptoms.py:182-189 | Matching the concatenation of two label lists gives the concatenation of the two matches. |
| Symptoms.MatchedCaseInsensitive | backend/core/utils/symptoms.py:185 | Two messages equal up to letter case match the same labels. |
| Symptoms.SymptomsInMessage | backend/core/utils/symptoms.py:168-189 | The loop that appends each mentioned label returns exactly the specified match. |
| Symptoms.ParseFrom | backend/core/utils/symptoms.py:204-219 | Walking a list of categories reports no more categories than it walks, and no more categories than symptoms. |
| Symptoms.Parse | backend/core/utils/symptoms.py:191-219 | Over the twelve categories: at most twelve category names, and at most as many as the symptom labels found. |
| Symptoms.ParseFromCategories | backend/core/utils/symptoms.py:206-217 | A category name is reported exactly when a category of that name has at least one matched label. |
| Symptoms.ParseFromSymptoms | backend/core/utils/symptoms.py:206-217 | A label is reported exactly when some walked category lists it and the message mentions it. Every reported label belongs to a reported category. |
| Symptoms.ReportedPositions | backend/core/utils/symptoms.py:206-217 | Lists, in increasing order, exactly the positions of the categories that have a match. |
| Symptoms.ParseFromAtPositions | backend/core/utils/symptoms.py:206-217 | The reported names are the names of the categories at the reported positions, in walking order. |
| Symptoms.ParseCategoriesOnceInOrder | backend/core/utils/symptoms.py:138-151 | The category names follow the order of `all_symptom_enums`, and no name appears twice. |
| Symptoms.MatchedCountsOnce | backend/core/utils/symptoms.py:182-189 | Within one category, a mentioned label is reported once if the category lists it and otherwise not at all. |
| Symptoms.ParseFromCount | backend/core/utils/symptoms.py:214-216 | There is no de-duplication across categories: a mentioned label appears as often as the categories list it. |
| Symptoms.ParseFromCaseInsensitive | backend/core/utils/symptoms.py:185 | The whole parse is unchanged by changing the letter case of the message. |
| Symptoms.ListingsAppend | backend/core/utils/symptoms.py:206-217 | The number of categories listing a label adds up over concatenated category lists. |
| Symptoms.ShortnessOfBreathListedTwice | backend/core/utils/symptoms.py:37-46 | SHORTNESS OF BREATH is listed by exactly two categories, Cardiovascular and Respiratory. |
| Symptoms.ShortnessOfBreathReportedTwice | backend/core/utils/symptoms.py:37-46 | A message mentioning it gets the label twice, and both category names. |
| Symptoms.GenitalItchingMentionsItching | backend/core/utils/symptoms.py:185 | Matching is by substring, not by word: a message mentioning GENITAL ITCHING also mentions ITCHING. |
| Symptoms.GenitalItchingAlsoReportsItching | backend/core/utils/symptoms.py:75-90 | Such a message is reported with both labels, under the genitourinary and the dermatological category. |
| Symptoms.ParseForSymptoms | backend/core/utils/symptoms.py:191-219 | The two nested loops, which extend the label list and append the category name, compute exactly `Parse`. |
| SymptomsExamples.NoSymptomMessageParse | backend/tests/test_symptoms.py:4-13 | "I am your father !" gives no symptoms and no categories. |
| SymptomsExamples.DepressionEyePainMessageParse | backend/tests/test_symptoms.py:16-25 | The test's second message gives DEPRESSION and EYE PAIN, under PsychiatricSymptoms and OcularSymptoms, in that order. |
| Messages.OfUser | backend/core/models/message.py:28 | Keeps exactly the documents of the given user, each exactly as often as it is stored, and no document of another user. |
| Messages.OfUserAppend | backend/core/models/message.py:28 | Selecting a user's documents commutes with concatenating stores, so the selection keeps storage order. |
| Messages.SortByCreation | backend/core/models/message.py:29 | Returns a permutation of its input in ascending `created_at` order. |
| Messages.Insert | backend/core/models/message.py:29 | Inserting into an ordered sequence keeps it ordered and adds exactly the one element. |
| Messages.WindowLength | backend/core/models/message.py:28-37 | The window holds min(number of the user's documents, limit) entries. |
| Messages.WindowContents | backend/core/models/message.py:28-29 | The window is in ascending `created_at` order, holds only the user's stored documents, and repeats none more often than the store does. |
| Messages.WindowIsOldest | backend/core/models/message.py:28-29 | No document left out of the window is older than one taken into it. |
| Messages.NewestLeftOutWhenFull | backend/core/models/message.py:28-29 | With more documents than the limit, the user's unique newest document is not in the window. |
| Messages.Annotate | backend/core/models/message.py:33-35 | Keeps the role, drops the user, and makes the content the original content followed by " timestamp: " and the rendered creation time. |
| Messages.AnnotateAll | backend/core/models/message.py:31-37 | One annotated entry per document, position by position. |
| Messages.AnnotateInjective | backend/core/models/message.py:34 | Given the original content's length, the annotated entry determines the original turn and its timestamp. |
| Messages.AnnotateEach | backend/core/models/message.py:31-37 | The loop that appends each annotated entry computes exactly `AnnotateAll`. |
| Messages.MessageStore.Save | backend/core/models/base.py:18-22 | Appends the document. `created_at` is the clock reading only when the document carries none; a timestamp it already carries is kept. |
| Messages.MessageStore.GetMessagesByUser | backend/core/models/message.py:17-37 | Returns the annotated window, at most 16 entries. |
| Messages.SaveAddsToOwner | backend/core/models/base.py:18-22 | Saving a document adds it to its owner's documents and to no one else's. |
| Messages.SaveKeepsOtherWindows | backend/core/models/message.py:28 | Saving a document of one user leaves every other user's window unchanged. |
| Chat.PreambleOpening | backend/core/utils/chatgpt.py:23-32 | Every system message is of role system. The first two are always the doctor-role instruction, then the brevity instruction. |
| Chat.FixedInstructionsAreNotHistory | backend/core/utils/chatgpt.py:23-48 | A helper for `PreambleHistory`: none of the fixed instructions can be taken for the medical-history instruction. |
| Chat.PreambleHistory | backend/core/utils/chatgpt.py:34-40 | The medical-history instruction is present exactly when the session has length 1 and the history is truthy, and it then comes third. |
| Chat.PreambleFinal | backend/core/utils/chatgpt.py:42-48 | The final-diagnosis instruction is present exactly when the session length is at least 2·MAX_MESSAGES − 1. |
| Chat.PreambleSize | backend/core/utils/chatgpt.py:34-48 | The two conditional instructions never both appear, so the preamble has 2 or 3 entries. |
| Chat.PromptCarriesOldestTurns | backend/core/utils/chatgpt.py:21-50 | Between the system messages and the new user turn, which comes last, the prompt holds the annotated stored turns of the user: min(their number, 16) of them, oldest first, none newer than a turn of the user left out. |
| Chat.FinalOnceTenTurnsStored | backend/tests/test_chatgpt.py:71-83 | With 2·MAX_MESSAGES − 2 = 10 stored turns, the prompt holds the final-diagnosis instruction. |
| Chat.FinalStaysOn | backend/core/utils/chatgpt.py:42 | Once 10 turns are stored, the final-diagnosis instruction is in every later prompt, whatever is stored later. |
| Chat.OfUserGrows | backend/core/models/message.py:28 | Storing more documents never lowers the number of a user's documents. |
| Chat.HistoryOnFirstTurn | backend/tests/test_chatgpt.py:57-68 | With no stored turns and a truthy history, the prompt holds the medical-history instruction. |
| Chat.SystemMessages | backend/core/utils/chatgpt.py:23-48 | The appends to `system_messages` compute exactly `Preamble` with MAX_MESSAGES = 6. |
| Chat.Sana.Chat | backend/core/utils/chatgpt.py:16-63 | The prompt is built from the window fetched before the user turn is saved. The user turn is stored on every path. On success, the assistant reply is stored and returned and nothing is logged. On failure, exactly one error is logged, no assistant turn is stored, and nothing is returned. |
| Validation.RequiredIff | frontend/utils/validation.ts:26-31 | `required` errs, with "Ce champ est requis", exactly on a falsy value or a white-space-only string. |
| Validation.LengthRulesIff | frontend/utils/validation.ts:33-49 | `minLength(n)` errs exactly when 0 < length < n; `maxLength(n)` errs exactly when the length exceeds n and is not 0. |
| Validation.FalsyAccepted | frontend/utils/validation.ts:33-138 | No rule other than `required` errs on an empty or missing value. |
| Validation.RuleFalsyAccepted | frontend/utils/validation.ts:155-221 | Through the rule dispatch, whatever the rule value, no rule other than `required` and `custom` errs on an empty or missing value; `dateOfBirth` included. |
| Validation.EmailPatternIff | frontend/utils/validation.ts:60-66 | The email pattern accepts exactly the strings without white space that have a single '@', not first, followed later by a '.' that is neither next to the '@' nor last. |
| Validation.EmailPartsHaveOneAt | frontend/utils/validation.ts:60-66 | A string the pattern accepts has no white space and one '@' only. |
| Validation.EmailPartsFromOneAt | frontend/utils/validation.ts:60-66 | A string without white space, with one '@' not first and a later '.' neither next to it nor last, is accepted. |
| Validation.Failures | frontend/utils/validation.ts:68-97 | There are never more messages than checks. |
| Validation.FailingPositions | frontend/utils/validation.ts:68-97 | Lists, in increasing order, exactly the failing checks. |
| Validation.FailuresAreFailingSubsequence | frontend/utils/validation.ts:68-97 | The collected messages are those of the failing checks, in check order. |
| Validation.PasswordIff | frontend/utils/validation.ts:68-97 | `password` succeeds exactly on an empty value or on one of length at least 8 with an upper-case letter, a lower-case letter, a digit and a special character. |
| Validation.PasswordSingleFailure | frontend/utils/validation.ts:72-96 | When exactly one check fails, the error is that check's message alone. |
| Validation.FailuresNone | frontend/utils/validation.ts:72-90 | When every check passes, no message is collected. |
| Validation.FailuresSingle | frontend/utils/validation.ts:72-90 | When exactly one check fails, its message is the only one collected. |
| Validation.PhoneIgnoresWhitespace | frontend/utils/validation.ts:130-138 | For a value with at least one character that is not white space, `phoneNumber` gives the same verdict on the value and on the value with its white space removed. |
| Validation.PhoneBlankRefused | frontend/utils/validation.ts:130-138 | A non-empty value of white space only is refused, while its cleaned form, the empty string, is accepted. |
| Validation.PhonePatternShape | frontend/utils/validation.ts:133 | An accepted number has 1 to 17 characters, all digits after the first. |
| Validation.PhoneDigitsIff | frontend/utils/validation.ts:130-138 | A value of digits only is accepted exactly when it does not start with 0 and has at most 16 digits. |
| Validation.PhoneLetterRefused | frontend/utils/validation.ts:130-138 | A letter anywhere in the value makes `phoneNumber` fail. |
| Validation.UsernameIff | frontend/utils/validation.ts:99-107 | `username` accepts exactly the empty value and the names of 3 to 20 characters from [A-Za-z0-9_]; any other value gets its one message. |
| Validation.UsernameExamples | frontend/utils/validation.ts:99-107 | For example, `username` accepts "alice_42" and refuses "al", "alice-42" and a 21-character name. |
| Validation.FirstError | frontend/utils/validation.ts:155-226 | Returns no error or a truthy, non-empty one; `FirstErrorIff` and `FirstErrorFirst` show it is the first truthy error of the rules, in order. |
| Validation.FirstErrorIff | frontend/utils/validation.ts:155-226 | No error exactly when no rule errs. Otherwise the error is that of a rule before which no rule errs, so the first error wins. |
| Validation.FirstErrorNone | frontend/utils/validation.ts:155-226 | No error exactly when no rule of the field errs. |
| Validation.FirstErrorFirst | frontend/utils/validation.ts:224 | An error returned is that of a rule before which no rule errs. |
| Validation.FormValidator.FieldError | frontend/utils/validation.ts:150-153 | A field without rules has no error. Any error is a non-empty string. |
| Validation.FormValidator.ValidateField | frontend/utils/validation.ts:150-227 | The loop with its early return computes exactly the first error among the field's rules. |
| Validation.FormValidator.FormErrors | frontend/utils/validation.ts:230-241 | At most one error per form entry, none of them empty. |
| Validation.FormValidator.ValidateForm | frontend/utils/validation.ts:230-247 | The loop over the form entries computes exactly the specified errors, field map and verdict. |
| Validation.FormValidator.FormErrorsKeys | frontend/utils/validation.ts:233-240 | `fieldErrors` has a key for exactly the fields that have an error. `errors` is empty exactly when `fieldErrors` is. |
| Validation.FormValidator.FormValidIff | frontend/utils/validation.ts:242-246 | `isValid` holds exactly when no field has an error, and exactly when `fieldErrors` is empty. |
| Validation.FormValidator.ErrorPositions | frontend/utils/validation.ts:233-240 | Lists, in increasing order, exactly the form entries that have an error. |
| Validation.FormValidator.FormErrorsInOrder | frontend/utils/validation.ts:233-240 | `errors` holds the fields' errors in form order. |
| Validation.FormValidator.FormFieldErrors | frontend/utils/validation.ts:237-238 | Each field's entry in `fieldErrors` is that field's error. |
| Validation.FormState.ValidateField | frontend/utils/validation.ts:285-292 | Stores the field's error, or "" when there is none, and leaves `touched` alone. |
| Validation.FormState.HandleFieldChange | frontend/utils/validation.ts:294-298 | Validates the field again only when it is touched; otherwise nothing changes. |
| Validation.FormState.HandleFieldBlur | frontend/utils/validation.ts:300-306 | Marks the field touched, then stores its error text. Touched flags stay true. |
| Validation.FormState.ValidateForm | frontend/utils/validation.ts:308-312 | The stored errors become the form's `fieldErrors`. |
| Validation.FormState.ClearErrors | frontend/utils/validation.ts:314-317 | Empties both `errors` and `touched`. |
| Session.BoolJson | frontend/services/sessionManager.ts:33-36 | The stored flag is "true" exactly for a remembered session. |
| Session.Saved | frontend/services/sessionManager.ts:26-45 | Writes exactly the four session keys and touches no other. The stored values are the token, the user record, the flag, and the expiry: "0" when remembered, otherwise one day after `now`. |
| Session.Cleared | frontend/services/sessionManager.ts:93-100 | Removes exactly the four session keys and keeps every other entry. |
| Session.ReadSession | frontend/services/sessionManager.ts:53-79 | Returns a session only when the token and the user data are present and not expired; it then carries the stored token, the stored user, and a flag true exactly when "true" is stored. The store is either unchanged or cleared. |
| Session.SaveThenRead | frontend/services/sessionManager.ts:26-79 | For a non-empty token and user record: reading at any time up to one day after saving returns the saved token, user and flag, with the stored expiry, and changes nothing. A remembered session reads back at any time. |
| Session.SaveThenReadExpired | frontend/services/sessionManager.ts:64-72 | For a non-empty token and user record: reading a session that is not remembered later than one day after saving returns nothing, and leaves the store as if the session had never been saved. |
| Session.RememberedNeverExpires | frontend/services/sessionManager.ts:64-65 | A remembered session is always returned and never removed. |
| Session.NoPositiveExpiryNeverExpires | frontend/services/sessionManager.ts:66-67 | An expiry that does not read as a positive number never expires. |
| Session.ValidAtExpiryMoment | frontend/services/sessionManager.ts:67 | For a non-empty token and user record: at the expiry moment itself the session is still valid; one millisecond later it is gone. |
| Session.NoTokenNoSession | frontend/services/sessionManager.ts:60-62 | Without a token or user data, nothing is returned and nothing changes. |
| Session.ReadClearsOnlyExpired | frontend/services/sessionManager.ts:64-72 | A read changes the store only by clearing an expired session. |
| Session.ClearProperties | frontend/services/sessionManager.ts:93-100 | Clearing keeps every other key, is idempotent, and leaves nothing for `getSession` to return. |
| Session.RefreshExtends | frontend/services/sessionManager.ts:107-117 | After refreshing a live session that is not remembered, it stays valid until one day after the refresh, and its expiry is that moment. |
| Session.ReadWithExpiry | frontend/services/sessionManager.ts:64-79 | A session whose expiry is rewritten to a moment e is read, at any time up to e, with expiry e. |
| Session.RefreshChangesOnlyExpiry | frontend/services/sessionManager.ts:107-117 | Refreshing rewrites only the expiry of a live session that is not remembered. Otherwise it leaves what the read left. |
| Session.SessionManager.SaveSession | frontend/services/sessionManager.ts:26-50 | The four writes leave the store as `Saved` specifies. |
| Session.SessionManager.GetSession | frontend/services/sessionManager.ts:53-84 | Returns the session `ReadSession` specifies and leaves the store it specifies, clearing an expired session. |
| Session.SessionManager.IsSessionValid | frontend/services/sessionManager.ts:87-90 | True exactly when `getSession` returns a session, with the same effect on the store. |
| Session.SessionManager.ClearSession | frontend/services/sessionManager.ts:93-104 | The store becomes `Cleared` of what it was. |
| Session.SessionManager.RefreshSession | frontend/services/sessionManager.ts:107-121 | The store becomes `Refreshed` of what it was. |

## Left out

- Unicode: lower-casing is ASCII lower-casing, and string lengths count
  characters rather than UTF-16 code units. Every label and test message is
  ASCII.
- `Symptoms.GetSymptoms`: no contract of its own. The enum is modelled
  directly as its label sequence, so `get_symptoms` is the projection onto
  that sequence. `Symptoms.TaxonomyWellFormed` shows that the labels within a
  category are distinct, so no enum member is an alias.
- `Messages.Window` selects the 16 oldest turns, as the query is written. The
  "16 most recent" reading of line 28 is not modelled. Among documents with
  equal `created_at`, storage order is assumed.
- Time stamps are natural numbers, and `datetime` rendering is decimal
  rendering. Concatenating a `datetime` to a string (message.py:34) raises a
  `TypeError` in Python; the model takes the time as already rendered.
- `Messages.MessageStore.Save` appends new documents only. Re-saving a stored
  document, and database errors, are not modelled.
- The OpenAI client is the `complete` parameter of `Chat.Sana.Chat`. The
  `logger` is the `errorLog` field. Database exceptions in `chat` are not
  modelled.
- The medical-history dictionary is a list of entries already rendered as
  Python's `repr` renders them.
- Concurrency: concurrent `chat` calls, asynchronous storage calls, and the
  React state-update batching of `useFormValidation` are not modelled. Every
  operation runs to completion on its own.
- Form values are a string or missing. Numbers, booleans and objects passed
  as form values are not modelled.
- The `dateOfBirth` rule (frontend/utils/validation.ts:109-128) depends on
  the system clock and JavaScript `Date` parsing. The validator takes it as a
  function parameter.
- The `pattern` and `custom` rules take an arbitrary regular expression or
  function. They are modelled as functions passed in the rule value.
- `validateFieldRealTime` is the same as `validateField` and is not
  modelled separately.
- The predefined forms of `FORM_VALIDATION_RULES` are not modelled.
- The limits of `minLength` and `maxLength` are whole numbers. A fractional
  or `NaN` limit, which JavaScript would accept (a comparison with `NaN` is
  always false), cannot be written in the model.
- `Validation.FormState.HandleFieldBlur` requires that every touched flag is
  true, which every operation of the hook preserves.
- AsyncStorage failures, and the `catch` branches of `SessionManager`, are not
  modelled. In those branches `saveSession` logs and rethrows, `getSession`
  logs and returns null, and `clearSession` and `refreshSession` log and
  return normally.
- The user record is stored as its JSON text, and `JSON.parse` is taken to
  return it unchanged; a parse failure is the `catch` branch above.
- `Date.now()` is a parameter of each session operation. `refreshSession`
  reads the clock twice: in `getSession`, then for the new expiry. These are
  the parameters `now` and `later`. Millisecond values are unbounded
  integers, not floating point.
- `SessionManager` is a class of static methods over the device's global
  store. It is modelled as an object holding that store in a field.
