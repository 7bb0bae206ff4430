# HR Magnet (cvmagnes): a Dafny model

HR Magnet is a single-page React app. It collects a CV and a job description
and sends them, with the applicant's preferences, to the Gemini API. It then
shows the application materials that come back: a subject line, an e-mail, a
cover letter, a salary note, a CV analysis and skill-match scores. This
project models the app's logic and proves what that logic promises:

- the form types and their enumerations (`types.ts`) — module `Types`;
- request composition in `generateHRMaterials` (`services/geminiService.ts`) —
  modules `Prompt`, `ResponseSchema` and `GeminiService`:
  - the choice of API key;
  - the prompt, as a concatenation of its fixed template fragments and the
    form's fields;
  - the parts list, to which the attachment is pushed;
  - the declared response schema, as data;
  - the empty-response guard;
- the state and handlers of the `App` component (`App.tsx`):
  - the 24-hour API-key cache in `localStorage` — `KeyCache`;
  - the form updaters the handlers pass to `setFormData` — `FormState`;
  - the submit controller;
  - the component state itself, as a class — `AppComponent.App`;
- the `**bold**` splitter `renderFormattedText` — `BoldText`;
- the derived display values — `Counters`;
- the JavaScript built-ins this logic relies on — `Js`:
  - truthiness and `||`;
  - `parseInt` and `Number#toString`;
  - `split(',')`, `slice` and `startsWith`/`endsWith`;
  - the module also defines joining and concatenation of strings, which the
    application does not call, to state what a split yields.

The form's skill ratings are the subset type `Types.Level` (integers 1 to 5),
the range the rating sliders allow. `SkillMatch.score` is documented as 0 to
100 but nothing enforces that, so it is a plain `int`. The browser and the
network are parameters:

- `localStorage` is a `map<string, string>` field of the `App` class;
- `Date.now()` is a time argument;
- the file picker gives a `PickedFile` plus the data URL the reader produced;
- the SDK call is a function from the key and the request to a `Reply`;
- `JSON.parse` is a function from text to an optional `GenerationResult`.

The prompt is the list of its 28 pieces, concatenated: after the opening
fragment (piece 0), the value of a slot (the even pieces 2 to 26) follows
each fixed fragment (the odd pieces). The `Prompt` lemmas are
proved for any text in the four long fragments that hold no field
(`Prompt.Blocks`). They therefore hold for the actual template:
`Prompt.PromptText` is the template with the actual fragments.

## Model

| member | source | states |
|---|---|---|
| Types.StylesDistinct | types.ts:2-10 | there are exactly seven styles; each is listed, and their string values are pairwise distinct |
| Types.TonesDistinct | types.ts:12-16 | there are exactly three tones, with pairwise distinct values (Tegező, Magázó, Üzleties) |
| Js.OrElse | services/geminiService.ts:18 | `s \|\| fallback` for a string: the string itself when it is non-empty, the fallback when it is empty or absent |
| Js.NatToString | services/geminiService.ts:22-26 | a number's decimal text is non-empty, all digits, and has no leading zero |
| Js.ParseIntNatToString | App.tsx:72-84 | `parseInt` of a stored `Date.now().toString()` gives back that time |
| Js.ParseInt | App.tsx:72 | `parseInt` gives `NaN` for the empty text and for a text opening with a character that is neither white space, a sign nor a digit; a text opening with a digit gives a non-negative number |
| Js.SplitField | App.tsx:109 | field k of `split(sep)` exists iff the split has more than k fields, and it never contains the separator |
| Js.Split | App.tsx:109 | `split` with a one-character separator yields at least one field, and no field contains the separator |
| Js.SecondFieldExists | App.tsx:109 | `split(',')[1]` is defined exactly when the text contains a comma |
| Js.SecondFieldOf | App.tsx:109 | for `head,tail` where neither part holds a comma, `split(',')[1]` is `tail` |
| Js.JoinSplit | App.tsx:109 | joining the fields of `split(sep)` with `sep` gives the text back |
| Js.Slice | App.tsx:168 | `slice` with negative indices counted from the end never yields more than the string |
| Prompt.PromptEmbedsJob | services/geminiService.ts:15-17 | for any content of the four slot-free blocks (so for the actual template), the prompt contains the job description, company and position, each right behind its label |
| Prompt.PromptEmbedsStyleAndTone | services/geminiService.ts:19-35 | the prompt contains the style's and the tone's string values behind their labels; the tone appears again in the strategy block |
| Prompt.PromptEmbedsSkills | services/geminiService.ts:21-26 | the prompt contains all five skill ratings, each behind its competency's label |
| Prompt.PromptSalary | services/geminiService.ts:18 | the salary slot holds the salary when it is non-empty and 'Nincs megadva' otherwise |
| Prompt.PromptCarriesCvText | services/geminiService.ts:28 | without a file, the prompt carries the CV text right behind its 'CV_DATA' label |
| Prompt.PromptDeterminesCvText | services/geminiService.ts:28 | without a file, two forms that differ only in the CV text give different prompts |
| Prompt.PromptNotesAttachment | services/geminiService.ts:28 | with a file, the prompt carries the attachment note instead, and is the same whatever the CV text |
| Prompt.PromptText | services/geminiService.ts:9-48 | the prompt sent carries the labelled CV text when no file is attached, and is the same whatever the CV text when one is |
| Prompt.PromptFrame | services/geminiService.ts:9-48 | for any content of the slot-free blocks, the filled template opens with the role description and ends with the output requirements and the request for JSON |
| ResponseSchema.SkillConforms | services/geminiService.ts:76-83 | every skill match's JSON satisfies the item schema (label a string, score a number, both required) |
| ResponseSchema.SkillArrayConforms | services/geminiService.ts:74-84 | the skill-alignment array satisfies the array schema |
| ResponseSchema.ToJsonLookups | services/geminiService.ts:66-87 | a result's JSON holds each field under its key; the two optional fields appear iff the result has them |
| ResponseSchema.ResultConformsIffAnalysis | services/geminiService.ts:66-87 | a result's JSON satisfies the declared schema iff it has a CV analysis: the schema requires `cvAnalysisReport` although the result type makes it optional, and `salaryNote` is optional in both |
| GeminiService.ApiKeyToUse | services/geminiService.ts:6-7 | the caller's key when it is non-empty; otherwise the environment's key; otherwise the empty string |
| GeminiService.BuildContents | services/geminiService.ts:50-59 | the list that starts with the prompt part, with the file's part pushed when there is a file, is the parts specification |
| GeminiService.Parts | services/geminiService.ts:50-59 | one text part holding the prompt without a file; with a file exactly two parts, and only the second is inline data, carrying the file's base64 content and MIME type |
| GeminiService.ComposeRequest | services/geminiService.ts:61-90 | the request names the model and the JSON config; without a file the CV reaches the model as labelled text in the prompt, with a file as the inline part, and the request is then the same whatever the CV text |
| GeminiService.ReadResponse | services/geminiService.ts:92-95 | an SDK error is passed on; an absent or empty text rejects with the empty-response error; a non-empty text is parsed: a success is exactly a successful parse, and a text the parser rejects gives the parse error with that text |
| GeminiService.EmptyReplyIgnoresParser | services/geminiService.ts:92-93 | an empty reply is rejected the same way whatever the parser would do, so parsing is never attempted |
| GeminiService.GenerateHRMaterials | services/geminiService.ts:5-95 | the SDK receives the chosen key and the request composed from the form alone (no clock, no randomness); its reply goes through the response guard |
| KeyCache.GetItem | App.tsx:67-68 | `getItem` gives `null` exactly for an absent entry, and the stored string otherwise |
| KeyCache.OnMount | App.tsx:66-79 | with both entries non-empty, restore iff the parsed time is less than 24 h before `now`, otherwise purge; with either entry missing or empty, keep everything |
| KeyCache.StorageAfter | App.tsx:74-77 | a purge removes exactly the two entries; restore and keep leave the storage unchanged |
| KeyCache.StoreKey | App.tsx:81-85 | storing sets the key entry to the value and the time entry to the time's decimal text, and touches no other entry |
| KeyCache.StoreThenLoad | App.tsx:66-85 | a non-empty key stored at time t is restored by a load before t + 24 h and purged by one at or after it |
| KeyCache.StoreEmptyThenLoad | App.tsx:70-85 | a cleared (empty) key is stored, and a later load leaves everything as it is |
| FormState.FieldsDetermine | types.ts:32-42 | two forms that agree on every key are equal |
| FormState.With | App.tsx:87-89 | `handleInputChange` sets the named key to the value and leaves every other key unchanged |
| FormState.WithLaws | App.tsx:87-89 | setting a key to its current value changes nothing; of two updates to one key the last wins |
| FormState.WithSkill | App.tsx:91-96 | `handleSkillChange` sets the named rating; the other ratings and every other form key are unchanged |
| FormState.WithSkillIsWith | App.tsx:91-96 | a skill update is the whole-key update of `aiSkills` with one rating replaced |
| FormState.FileDataOf | App.tsx:109-116 | the attachment holds `split(',')[1]` of the data URL, the reported MIME type or 'application/pdf' when that is empty (so never empty), and the file name |
| FormState.DataUrlPayload | App.tsx:109 | for a data URL `header,payload` whose payload has no comma, the attachment carries exactly the payload |
| FormState.WithFile | App.tsx:110-118 | attaching sets the file, empties the CV text, and changes no other key |
| FormState.WithoutFile | App.tsx:123-127 | removing leaves no file and an empty CV text, and changes no other key |
| FormState.AttachThenRemove | App.tsx:108-127 | attaching and then removing a file gives the same form as removing alone |
| FormState.HandlersKeepCvExclusive | App.tsx:87-127 | input edits the page allows, skill edits, attaching and removing all keep the CV text empty while a file is attached |
| FormState.InitialForm | App.tsx:49-64 | the form the component starts with holds neither CV text nor a file, so it keeps the invariant that a file and CV text never coexist |
| FormState.SubmitBlocker | App.tsx:133-140 | the CV message iff there is neither CV text nor a file; otherwise the key message iff the key is empty; no message iff there is a CV and a key |
| FormState.InitialFormBlocked | App.tsx:49-64 | the initial form has no file and no CV text, so a submit stops at the CV check whatever the key |
| FormState.FileDecidesCvCheck | App.tsx:123-140 | after removing a file, a submit stops at the CV check; after attaching one, only the key can stop it |
| Counters.JdRemaining | App.tsx:174 | remaining characters plus used characters make up the 1500-character limit |
| Counters.JdRemainingBounds | App.tsx:174 | within the textarea's limit the counter lies in 0..1500, is 1500 only for an empty description, and is under 100 (shown red) iff more than 1400 characters are used |
| Counters.EmailBadge | App.tsx:606-610 | the badge shows the missing characters (1..1000, adding up to 1000 with the length) iff the e-mail is shorter than 1000, and otherwise the length |
| Counters.EmailBadgeMonotone | App.tsx:606-610 | a longer e-mail is never further from the target than a shorter one |
| Counters.CoverLetterCopy | App.tsx:627 | the copied text is the cover letter, followed by a blank line and the salary note iff the note is non-empty |
| Counters.CoverLetterCopyParts | App.tsx:627 | the copied text starts with the letter, is longer than it iff there is a note, and the note can be read back from behind the blank line |
| BoldText.CloseFrom | App.tsx:165 | a closing `**` found from position j lies at or after j and within the text |
| BoldText.FindMatch | App.tsx:165 | a match found from position `from` starts at or after it, and its closing `**` comes after the opening one and lies within the text |
| BoldText.CloseFromNearest | App.tsx:165 | the lazy `.*?\*\*` started at `j` ends at the nearest `**` reachable without crossing a line terminator, and finds none exactly when no `**` is reachable |
| BoldText.FindMatchLeftmost | App.tsx:165 | the scan finds a match at the leftmost position from `from` where the pattern matches, closed at its nearest `**`, and finds none exactly when the pattern matches nowhere from there |
| BoldText.SplitFrom | App.tsx:165 | the split always has an odd number of parts |
| BoldText.Split | App.tsx:165 | `split` with the capturing pattern always yields an odd number of parts, so at least one, even for the empty text |
| BoldText.SplitFromJoins | App.tsx:165 | the parts of the split from position i concatenate to the rest of the text |
| BoldText.SplitJoins | App.tsx:165 | the parts of `split` concatenate to the text exactly |
| BoldText.SplitFromAlternates | App.tsx:165 | the parts at even positions contain no span, and the parts at odd positions are `**…**` spans without a line terminator or an inner closing `**` |
| BoldText.SplitAlternates | App.tsx:165 | the same for the whole text |
| BoldText.RenderPart | App.tsx:166-170 | a part is bold iff it starts and ends with `**`; its bold text is the part without them, or empty when the part is shorter than 4; a plain part is kept as it is |
| BoldText.RenderFormattedText | App.tsx:163-172 | the empty text renders as nothing; any other text renders part k of the split as piece k, by the map callback, so there is an odd number of pieces and every captured match is shown bold |
| BoldText.MarkdownOfParts | App.tsx:166-171 | writing the rendered parts back as markdown gives their concatenation, as long as no part is a lone `**` or `***` |
| BoldText.RenderRoundTrip | App.tsx:163-172 | writing the rendered text back as markdown gives the input, as long as no part is a lone `**` or `***` |
| BoldText.ThreeStarsVanish | App.tsx:165-168 | `***` renders as one empty bold element, so the round trip needs its exclusion |
| AppComponent.App.constructor | App.tsx:42-64 | the component starts not loading, with no error, no result, an empty key and the initial form, over the given storage |
| AppComponent.App.LoadSavedKey | App.tsx:66-79 | the mount effect sets the key on a restore, updates the storage as the load decides, and changes nothing else |
| AppComponent.App.HandleApiKeyChange | App.tsx:81-85 | the key is set and stored with the time; a later load restores a non-empty key for 24 hours and purges it afterwards; nothing else changes |
| AppComponent.App.HandleInputChange | App.tsx:87-89 | the form becomes the one-key update, and the CV invariant holds for edits the page allows |
| AppComponent.App.HandleSkillChange | App.tsx:91-96 | the form becomes the one-rating update and keeps the CV invariant |
| AppComponent.App.HandleFileChange | App.tsx:98-121 | no file changes nothing; a file over 3·1024·1024 bytes sets the size error and keeps the form; otherwise the file is attached, the CV text emptied and the error kept |
| AppComponent.App.RemoveFile | App.tsx:123-129 | the form loses its file and its CV text, and nothing else changes |
| AppComponent.App.BeginSubmit | App.tsx:131-143 | it proceeds iff there is a CV and a key; otherwise the error is the CV message or else the key message, and loading is untouched; if it proceeds, loading is on and the error cleared |
| AppComponent.App.FinishSubmit | App.tsx:144-155 | success replaces the result; failure keeps the previous result and sets the generic failure message; loading ends off |
| AppComponent.App.HandleSubmit | App.tsx:131-156 | a blocked submit never reaches the generator and only sets its message; otherwise the generator gets the user's key and the form, success stores the materials with no error, failure keeps the previous result with the failure message, and loading ends off |

## Left out

- The Gemini SDK is a parameter. Its network behaviour, the model's output and
  the SDK's own validation against the schema are not part of this model.
- `JSON.parse(text) as GenerationResult` is a parameter. The cast checks
  nothing at run time, and this model does not restate what the parser accepts.
- The response schema is modelled as data, and JSON numbers as integers. The
  temperature 0.7 is stored in tenths, as 7.
- `FileReader` is asynchronous. Its `onload` is modelled as finishing inside
  `HandleFileChange`, so updates that interleave with a pending read are not
  captured.
- `HandleFileChange` requires the data URL of an accepted file to contain a
  comma, which every URL `readAsDataURL` produces has. The code's
  `undefined` base64 for a comma-free string is not modelled.
- Resetting the file input's DOM value in `removeFile` (App.tsx:128) is a DOM
  side effect and is not modelled.
- Scrolling to the results (App.tsx:147-149), `console.error` and
  `navigator.clipboard` are browser I/O. The copied text itself is modelled
  (`Counters.CoverLetterCopy`).
- All JSX rendering and styling is left out. Only the values it displays are
  modelled: the counters, the e-mail badge and the bold pieces.
- `Js.ParseInt` models decimal `parseInt`: leading white space, a sign, a digit
  prefix. The `0x` prefix and the loss of precision past 2^53 are not
  modelled; numbers are unbounded integers.
- String lengths count Unicode code points. JavaScript's `length` counts
  UTF-16 code units, so the counters differ for characters outside the Basic
  Multilingual Plane.
- The regular expression engine is not modelled. `BoldText` specifies the
  split `/(\*\*.*?\*\*)/g` by an explicit scan: the leftmost `**` with a
  closing `**` on the same line, then the nearest such close.
- Concurrent or overlapping submits are not modelled. The submit buttons are
  disabled while loading, and the page is single-threaded. `HandleSubmit` runs
  the request in one step.
- The HTML `required` and `maxLength` checks are done by the browser, not by
  the handlers. `handleSubmit` does not check the company, position or job
  description, and neither does the model. The 1500-character limit enters
  only as the precondition of `Counters.JdRemainingBounds`.
- `e?.preventDefault()` is left out.
- The rating slider component (components/SkillSlider.tsx) is not part of this
  model beyond its 1 to 5 range, which is the `Types.Level` type.
- `generateHRMaterials` does not extract JSON from surrounding text and has
  no typed error kinds: every failed request ends in the one message of
  App.tsx:152.
