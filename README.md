# Survey form: validator, submit flow and submit endpoint

A Dafny model of the logic behind a one-page survey. The page collects an
occupation, one or more reasons of interest (six checkboxes), a longer
explanation, an optional e-mail address and a social-support checkbox. It
validates them in the browser and posts them to `POST /api/submit`. The
endpoint turns the body into one six-column row of a spreadsheet.

Modules, one per component:

- `JsText` (`js_text.dfy`): the ECMAScript string behaviour the validator
  and the endpoint use. This is the white-space class shared by `\s` and
  `String.prototype.trim`, then `trim`, `.length` counted in UTF-16 code
  units, and `join`. It also has a reader for ", "-joined cells, the inverse
  that `join` is proved against.
- `EmailPattern` (`email_pattern.dfy`): the e-mail pattern
  `/^[^\s@]+@[^\s@]+\.[^\s@]+$/` as a predicate, and the proof that it accepts
  exactly the strings that have no white space, exactly one '@', a non-empty
  part before the '@', and a '.' inside the part after it that is neither
  that part's first nor its last character.
- `FormValidation` (`form_validation.dfy`): form data, the `FormErrors`
  record and `validateForm`.
- `SurveyPage` (`survey_page.dfy`): the page's `errors`/`isSubmitting`
  state as a class. `handleSubmit` is split at its `await` into
  `HandleSubmit` (up to the request) and `Settle` (after the answer).
  `PressSubmit` models the disabled submit button. A ghost trace records
  every state update in order.
- `JsValue` (`js_value.dfy`): parsed JSON values with truthiness, property
  access and `Array.prototype.join`.
- `SubmitRoute` (`submit_route.dfy`): row construction (`BuildRow`), the
  spreadsheet as an append-only `Sheet` of rows, and `Post` with its
  success/500 rule.
- `Pipeline` (`pipeline.dfy`): the page and the endpoint together. It covers
  what a validated form becomes in the sheet and two concrete scenarios.

Strings are sequences of Unicode scalar values. Form-data entries are
USV strings, so they have no lone surrogates. Every ECMAScript white-space
code point is in the Basic Multilingual Plane. So trimming and `[^\s@]` give
the same answer whether a string is read as code points or as UTF-16 code
units; `.length` is modelled separately by `Utf16Length`.

Behaviour of the code worth knowing:

- The endpoint does not re-validate. Any JSON body whose `interest_reasons`
  is an array that `join` can convert produces a row
  (`SubmitRoute.NoServerValidation`). Only the page's own check keeps an
  invalid form out of the spreadsheet.
- `join` throws, and the endpoint answers 500, when an element of
  `interest_reasons` is an object with its own `toString` field, even inside
  a nested array (`SubmitRoute.OwnToStringRejected`).
- The e-mail column is `""` for every falsy e-mail (missing, null, `""`),
  not only for a missing one. A truthy e-mail of any type is copied unchanged.
- The social-support column is `"Y"` for any truthy value, not only for `true`.
- The occupation check counts UTF-16 code units, not characters. A single
  character outside the Basic Multilingual Plane (an emoji) passes the
  "at least 2 characters" check (`FormValidation.AstralCharacterAccepted`).

## Model

| member | source | states |
|---|---|---|
| `JsText.SkipSpace` | src/app/page.tsx:26 | from a start position, the end of the run of white space there: everything skipped is white space and the next character, if any, is not |
| `JsText.SkipSpaceBack` | src/app/page.tsx:26 | from an end position, back to the start of the run of white space before it, never past a lower bound; everything skipped is white space and the character before, if above the bound, is not |
| `JsText.IsSpace` | src/app/page.tsx:45 | the white space of `\s` and `trim`; every such character is in the Basic Multilingual Plane, and none is '@', ',' or '.' |
| `JsText.Trim` | src/app/page.tsx:26 | `trim()`: an infix of the input with only white space removed around it; empty exactly when the input is all white space; otherwise it starts and ends with non-white-space |
| `JsText.Utf16Length` | src/app/page.tsx:26 | `.length` in UTF-16 code units: between the character count and twice it, and equal to it exactly when no character is outside the Basic Multilingual Plane |
| `JsText.JoinEnds` | src/app/api/submit/route.ts:27 | `join` of no parts is ""; otherwise the text starts with the first part, ends with the last, and is at least as long as the separators between neighbours |
| `JsText.SplitJoinedJoin` | src/app/api/submit/route.ts:27 | a non-empty list of comma-free parts joined with ", " reads back as the same list in the same order |
| `JsText.SplitOnJoin` | src/app/api/submit/route.ts:27 | splitting a ", "-joined list on ',' gives the first part and each later part behind exactly one space |
| `EmailPattern.MatchesEmailPattern` | src/app/page.tsx:45-46 | `emailRegex.test`: an accepted text has at least 5 characters and holds an '@' and a '.' |
| `EmailPattern.WellFormedEmail` | src/app/page.tsx:45-46 | the address shape the pattern stands for; such a text has at least 5 characters and holds an '@' and a '.' |
| `EmailPattern.EmailPatternCharacterization` | src/app/page.tsx:45 | the pattern accepts a string exactly when it has no white space, exactly one '@', a non-empty local part and a '.' strictly inside the domain part |
| `EmailPattern.MatchImpliesWellFormed` | src/app/page.tsx:45 | every string the pattern accepts has that shape |
| `EmailPattern.WellFormedImpliesMatch` | src/app/page.tsx:45 | every string of that shape is accepted by the pattern |
| `EmailPattern.EmailPatternExamples` | src/app/page.tsx:45-47 | "a@b.co" is accepted; "a@b" and "not-an-email" are rejected |
| `FormValidation.Get` | src/app/page.tsx:25 | `formData.get`: a value exactly when `getAll` gives at least one, and then the first of them |
| `FormValidation.GetAll` | src/app/page.tsx:31 | `formData.getAll`: every value under the name in order, none when the name was not submitted |
| `FormValidation.FormErrors.Keys` | src/app/page.tsx:65 | `Object.keys(validationErrors)`: a field is a key exactly when its message is present |
| `FormValidation.OccupationError` | src/app/page.tsx:25-28 | the occupation message exactly when the occupation is absent or trims to under 2 code units |
| `FormValidation.InterestReasonsError` | src/app/page.tsx:31-34 | the reasons message exactly when no reason is submitted |
| `FormValidation.DetailedReasonError` | src/app/page.tsx:37-40 | the detailed-reason message exactly when the explanation is absent or trims to under 10 code units |
| `FormValidation.EmailError` | src/app/page.tsx:43-49 | the e-mail message exactly when an e-mail is given, is non-empty and does not have the address shape |
| `FormValidation.ValidateForm` | src/app/page.tsx:21-52 | each of the four entries depends only on its own field. Occupation: absent or trimmed length under 2. Reasons: none submitted. Detailed reason: absent or trimmed length under 10. E-mail: given, non-empty and not address-shaped. An entry holds its field's fixed message; the record is empty exactly when all four checks pass |
| `FormValidation.BelowTwoCodeUnits` | src/app/page.tsx:26 | a trimmed length under 2 means the text is all white space, or trims to one character of the Basic Multilingual Plane |
| `FormValidation.WhiteSpaceRejected` | src/app/page.tsx:26-40 | white-space-only text fails both the occupation and the detailed-reason checks |
| `FormValidation.OneLetterRejected` | src/app/page.tsx:26 | " a " fails the occupation check |
| `FormValidation.TwoSyllablesAccepted` | src/app/page.tsx:26 | "학생" passes the occupation check |
| `FormValidation.AstralCharacterAccepted` | src/app/page.tsx:26 | a single emoji passes the occupation check, since `.length` counts it as 2 |
| `FormValidation.EmailOptional` | src/app/page.tsx:43-49 | null or "" never gives an e-mail error; a non-empty e-mail gives one exactly when the pattern rejects it, so the inner `!email` test adds nothing |
| `SurveyPage.BuildPayload` | src/app/page.tsx:78-84 | the request's social-support flag is true exactly when the form value is "on"; the reasons are every submitted value, in order |
| `SurveyPage.PayloadJson` | src/app/page.tsx:78-84 | the `JSON.stringify` body as the endpoint parses it: an object whose five fields hold the payload's values, with null for a missing text |
| `SurveyPage.IsOk` | src/app/page.tsx:87 | `response.ok`: only an answered request can be ok; the endpoint's 200 is ok and its 500 is not |
| `SurveyPage.Page.constructor` | src/app/page.tsx:17-18 | initial state: no errors, not submitting |
| `SurveyPage.Page.SetIsSubmitting` | src/app/page.tsx:18 | sets the flag and records the new state |
| `SurveyPage.Page.SetErrors` | src/app/page.tsx:17 | sets the errors and records the new state |
| `SurveyPage.Page.SubmitDisabled` | src/app/page.tsx:223 | the submit button is disabled exactly while a request is outstanding |
| `SurveyPage.Page.HandleSubmit` | src/app/page.tsx:54-85 | raises the flag, then clears the errors, then validates. A non-empty result is shown as it is, the flag is lowered and nothing is sent. An empty result sends exactly the payload built from the form and waits with the flag up |
| `SurveyPage.Page.Settle` | src/app/page.tsx:87-96 | navigates to the landing page on an ok response and alerts on a bad status or a failed fetch; the flag is lowered in every case and the errors are untouched |
| `SurveyPage.Page.PressSubmit` | src/app/page.tsx:221-223 | a press while a request is outstanding does nothing. Otherwise, for a press the browser's own `type="email"` check lets through, the handler runs in full: a form that fails validation shows its errors, lowers the flag and sends nothing; a valid form clears the errors and sends exactly its payload, with the flag left up; the state updates are recorded in order |
| `JsValue.Truthy` | src/app/api/submit/route.ts:29-30 | ToBoolean: null and undefined are falsy, every array and object is truthy (even an empty one), and a string is truthy exactly when it is non-empty |
| `JsValue.Stringable` | src/app/api/submit/route.ts:27 | ToString returns rather than throws, except for an object with its own `toString` field or an array holding one at any depth: every primitive converts, such an object does not, and a converting array has only converting elements |
| `JsValue.JoinSucceeds` | src/app/api/submit/route.ts:27 | `join` returns exactly when every element converts; an array of strings, nulls and undefineds always joins, and one that joins holds no object with its own `toString` field |
| `JsValue.ToJsString` | src/app/api/submit/route.ts:27 | ToString of an element that converts: a string is itself, a number's text starts with '-' exactly when it is negative, an empty array is "" |
| `JsValue.ArrayJoin` | src/app/api/submit/route.ts:27 | `join` on an array whose elements all convert: "" for no elements and for a lone null or undefined, a lone string as it is |
| `JsValue.Property` | src/app/api/submit/route.ts:26-30 | reading one of the five fields the endpoint uses gives the field's value, or undefined when it is missing or the body is not an object |
| `JsValue.ElementStrings` | src/app/api/submit/route.ts:27 | `join` writes each string element as it is and null or undefined as "" |
| `JsValue.ArrayJoinStrings` | src/app/api/submit/route.ts:27 | joining an array of strings joins the strings themselves |
| `SubmitRoute.BuildRow` | src/app/api/submit/route.ts:24-31 | fails on a null body, when `interest_reasons` is not an array, and when one of its elements cannot be converted to a string (an object with its own `toString` field, at any depth); each failure exactly in its case. Otherwise the six columns are the given timestamp, the occupation and detailed reason unchanged, the reasons joined with ", ", the e-mail or "" when it is falsy, and "Y" exactly when social support is truthy, else "N" |
| `SubmitRoute.AppendedRow` | src/app/api/submit/route.ts:14-33 | a row is appended exactly when the body parsed, the sheet is reachable and accepts the row, and building the row succeeds; that row is the built one, with the given timestamp |
| `SubmitRoute.Sheet.AddRow` | src/app/api/submit/route.ts:24 | appends exactly the row when the service accepts it; otherwise fails and leaves the rows unchanged |
| `SubmitRoute.Post` | src/app/api/submit/route.ts:13-41 | answers `{ success: true }` exactly when one row was appended, and then exactly the built row. Every failure gives the same status-500 body with the fixed message and leaves the sheet unchanged |
| `SubmitRoute.PostTwice` | src/app/api/submit/route.ts:24-33 | posting the same body twice appends two rows that differ at most in the timestamp; nothing is deduplicated |
| `SubmitRoute.OwnToStringRejected` | src/app/api/submit/route.ts:27 | an element object with its own `toString` field makes the row fail, whether it sits in `interest_reasons` itself or in an array nested inside it |
| `SubmitRoute.NoServerValidation` | src/app/api/submit/route.ts:15-31 | a body with an empty occupation and no reasons still becomes a row |
| `Pipeline.PayloadRow` | src/app/api/submit/route.ts:24-31 | any payload the page can send with both texts present becomes the row it describes |
| `Pipeline.ValidatedFormRow` | src/app/page.tsx:78-84 | a validated form always yields a row: the texts as typed, the reasons joined in order, "" for a missing or empty e-mail, "Y" exactly when the box was ticked |
| `Pipeline.OfferedReasonsCommaFree` | src/app/page.tsx:145-152 | none of the six offered reasons contains a comma |
| `Pipeline.ReasonsReadBack` | src/app/api/submit/route.ts:27 | for a validated form whose reasons come from the offered list, the reasons column reads back as exactly the ticked reasons, in order |
| `Pipeline.StudentScenario` | src/app/page.tsx:21-52 | a student's form (occupation "학생", one reason, a long explanation, no e-mail, box ticked) validates and becomes a row with "Y" and an empty e-mail |
| `Pipeline.EmptyOccupationScenario` | src/app/page.tsx:25-28 | the same form with an empty occupation gets the occupation error and no other |
| `Pipeline.ValidatedAppendedRow` | src/app/api/submit/route.ts:14-33 | the endpoint appends a validated form's row exactly when the spreadsheet is reachable and accepts it |
| `Pipeline.SubmitThroughEndpoint` | src/app/page.tsx:54-96 | one submit carried through the endpoint. A form that fails validation shows its errors and appends nothing. A valid form's row is appended and the page navigates exactly when the sheet is reachable and accepts it; otherwise the page alerts. The button is enabled again at the end |

## Left out

- Rendering, styling, the logo, the privacy-policy text and its open/closed toggle: presentational only.
- `fetch`, `router.push` and `alert`: browser and network input/output. The answer of the request is a parameter (`FetchOutcome`); navigation and the alert are returned as an `Effect` value.
- React's batching of state updates and the asynchronous scheduling of `handleSubmit`. Each `setState` call is modelled as an immediate update, recorded in order in a ghost trace. The `await` is the point where `HandleSubmit` ends and `Settle` begins.
- The service-account token, the spreadsheet document and its `loadInfo`/`sheetsByIndex`/`addRow` calls: foreign library and network calls. Whether loading the document and its first sheet succeeds, and whether the append is accepted, are boolean parameters of `Post`. The first sheet is the append-only `Sheet`.
- `new Date().toISOString()`: the clock. The timestamp is a parameter.
- `req.json()`: parsing is not modelled. The body is given already parsed, or as absent when parsing failed.
- `console.error` logging.
- JSON numbers are integers in the model. Fractional numbers, exponents and `-0` (their truthiness and their `join` text) are not modelled.
- SurveyPage.Page.PressSubmit: the browser's constraint validation for the `type="email"` input (src/app/page.tsx:196) is not modelled. The browser blocks the submit event before `handleSubmit` for a non-empty e-mail that is not a valid HTML e-mail address, and it strips white space around the value. The contract describes a press whose e-mail passes that check.
- JsValue.ToJsString: writes every integer as a plain decimal, so the exponent form ECMAScript uses from 1e21 up ("1e+21") is not modelled. Neither is the precision `JSON.parse` loses above 2^53.
- JsValue.Property: gives only own fields of a parsed object and undefined for everything else, so inherited or built-in properties (`length` of a string or an array, `constructor`) are not modelled. The endpoint reads only the five fields of the body, and none of them is such a property.
- File values in form data are not modelled; every form value is a string.
- A general regular-expression engine. Only the one e-mail pattern is modelled, as a predicate.
