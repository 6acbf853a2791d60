# Braindump: a verified model of the wizard, its routes and the structuring library

Braindump is a Next.js application. A user describes a brainstorming session, records or uploads its audio and has it transcribed. A language model then arranges the transcript into a summary and categories of insights, and signed-in users can list and delete their saved sessions.

This project models in Dafny the logic that decides what the application does:

- **Structuring library** (`Structuring`). The two zod schemas for a structured result are modelled as parsers over JSON values. `structureText` returns the validated value, or a fixed Norwegian fallback on any failure. `validateSessionData` is modelled with its three length checks.
- **Structure route** (`StructureRoute`). `POST /api/structure` has two ordered validation gates that test JavaScript falsiness, maps its outcomes to status 200, 400 or 500, and lets the library mask model failures.
- **Transcribe route** (`TranscribeRoute`). `POST /api/transcribe` has an audio-present gate, then sends the success payload `{ transcription, success }` or the error payload `{ error, details }`.
- **Audio-input component** (`AudioInput`):
  - tab, file and recording state;
  - the file-select and clear handlers;
  - the transcribe handler: where it takes the audio from, its two-phase upload/transcribe flags, the order of its parent callbacks, and how it maps error messages;
  - the rule that enables the transcribe button.
- **Session-setup form** (`SessionSetup`). Fields are edited one at a time. The validity test trims each field the way `String.prototype.trim` does, and submit hands the untrimmed fields to the page.
- **Brain-dump page** (`BrainDumpPage`):
  - the four-step wizard and its handlers;
  - guarded step navigation;
  - the back and forward buttons;
  - the generate panel.
- **Home page** (`HomePage`). The same wizard state with different step rules:
  - a finished transcript jumps to step 4;
  - losing the audio returns to step 2;
  - an effect resets the step whenever everything is cleared;
  - the step-4 panel has its own gating, and its generate button is disabled while a request is in flight.
- **Profile page** (`ProfilePage`). Loading the saved-session list, and deleting one entry after a confirmation.

Shared values live in `Js` and `Domain`:

- JSON documents;
- JavaScript truthiness;
- thrown values;
- JSON responses;
- the session, category and structured-result records.

The external collaborators become parameters holding the outcome they would produce:

| collaborator | outcome parameter |
|---|---|
| LangChain/OpenAI chain | `ChainOutcome` |
| Whisper call | `SpeechOutcome` |
| blob upload | `UploadOutcome` |
| fetch of the transcribe route | `ReplyOutcome` |
| fetch of the structure route | `StructureFetch` |
| session service | `LoadOutcome`, `DeleteOutcome` |
| browser confirmation dialog | a `bool` |

The React components become classes:

- each `useState` becomes a field;
- each handler becomes a method whose `modifies` clause names the fields it sets;
- the parent callbacks a component makes become a sequence field that the methods append to.

An asynchronous handler is modelled twice:

- as the steps between its `await`s (for example `BeginStructuring` and `CompleteStructuring`);
- as one method that runs them in order over given outcomes (`HandleGenerateStructuredOutput`).

On the home page, the reset `useEffect` is applied at the end of every handler whose state it depends on, and the rule it enforces is part of the class invariant.

The model follows the code where its behaviour is easy to misread:

- The error `details` of the transcribe route are empty when the thrown Error's message is empty (`TranscribeRoute.PostFailureCarriesDetails`).
- The schema places no bound on the number of categories or insights, although the prompt asks for 3–6 categories (`Structuring.SchemaAcceptsEmptyLists`).
- Neither `validateSessionData` nor the structure route trims the session fields (`Structuring.ValidateSessionDataDoesNotTrim`). Only the setup form trims them. So every session the form accepts passes the server (`StructureRoute.ServerAcceptsWhatFormAccepts`), but the server also accepts non-empty blank fields that the form rejects (`StructureRoute.ServerAcceptsBlankFieldsFormRejects`).
- The audio component posts `{ audioUrl }` as JSON to `/api/transcribe`, while the route reads `request.formData()`. The model states how this pair ends, so the component reports "Failed to transcribe audio" (`AudioInput.JsonBodyIsNeverTranscribed`). It is stated as an observation about the pair: which side is intended cannot be decided from the code.

## Model

| member | source | states |
|---|---|---|
| Structuring.ParseStrings | src/lib/structureText.ts:13-15 | an array of strings is accepted exactly when every item is a string, and the result holds those strings in order |
| Structuring.ParseCategory | src/lib/structureText.ts:8-16 | a category is accepted exactly when `title` and `description` are strings and `insights` is an array of strings; the result copies those three fields |
| Structuring.ParseCategories | src/lib/structureText.ts:20-22 | a category array is accepted exactly when every item has the category shape; each result entry is that item's parse |
| Structuring.ParseStructuredOutput | src/lib/structureText.ts:18-23 | a value is accepted exactly when `summary` is a string and `categories` is an array of valid categories; the result copies the summary and the parsed categories |
| Structuring.ParseEncodeStrings | src/lib/structureText.ts:13-15 | a string list sent as JSON parses back to itself |
| Structuring.ParseEncodeCategory | src/lib/structureText.ts:8-16 | a category sent as JSON parses back to itself |
| Structuring.ParseEncodeCategories | src/lib/structureText.ts:20-22 | a category list sent as JSON parses back to itself |
| Structuring.ParseEncodeRoundTrip | src/lib/structureText.ts:18-23 | every structured result, sent as JSON, has the schema's shape and parses back unchanged |
| Structuring.ValidatedResultHasOnlyDeclaredKeys | src/lib/structureText.ts:124-127 | for any input the schema accepts, the validated result carries exactly `summary` and `categories` (and `title`, `description`, `insights` per category), all keys of the input, with the input's summary and as many categories; a `keyTakeaways` key of the input is dropped |
| Structuring.SchemaAcceptsEmptyLists | src/lib/structureText.ts:18-23 | the schema accepts an empty category list and a category with no insights |
| Structuring.StructureText | src/lib/structureText.ts:54-146 | a chain value that passes the schema is returned as validated; a throw or a rejected value yields the fallback |
| Structuring.FallbackIsWellFormed | src/lib/structureText.ts:131-145 | the fallback has the fixed summary, exactly one category "Sesjonsinnhold" with its two fixed insights, and passes the schema |
| Structuring.FallbackIgnoresInputs | src/lib/structureText.ts:128-146 | on any failure the result is the same fallback, whatever the transcript, the session data or the kind of failure |
| Structuring.StructureTextIsWellFormed | src/lib/structureText.ts:54-146 | whatever the chain does, the result passes the schema when sent as JSON |
| Structuring.ValidateSessionData | src/lib/structureText.ts:150-158 | accepts exactly an object whose name, description and objective are strings of length at least 1, and returns those three fields; otherwise fails with a non-empty issue list, and a non-object with "expected object" |
| Structuring.ValidateSessionDataDoesNotTrim | src/lib/structureText.ts:151-155 | on session data sent as JSON, validation succeeds exactly when all three fields are non-empty, whitespace-only ones included, and returns them untrimmed |
| StructureRoute.Post | src/app/api/structure/route.ts:4-36 | the status is always 200, 400 or 500 |
| StructureRoute.PostFailsOnlyOnUnreadableBody | src/app/api/structure/route.ts:29-35 | 500 is answered exactly for a body that cannot be parsed or destructured (`null`), always with "Failed to structure text" |
| StructureRoute.PostRejectsMissingInput | src/app/api/structure/route.ts:8-13 | 400 with "Transcription and session data are required" exactly when the transcription or the session data is falsy |
| StructureRoute.PostRejectsIncompleteSession | src/app/api/structure/route.ts:15-24 | past the first gate, 400 with the session message exactly when name, description or objective is falsy |
| StructureRoute.PostAnswersValidRequests | src/app/api/structure/route.ts:26-28 | past both gates the answer is 200 with `structureText`'s result, and that body has the schema's shape |
| StructureRoute.PostSuccessIsWellFormed | src/app/api/structure/route.ts:26-28 | every 200 body passes the structured-result schema |
| StructureRoute.PostMasksChainFailure | src/app/api/structure/route.ts:26-28 | a valid request whose chain throws is still answered 200, with the fallback |
| StructureRoute.ServerAcceptsWhatFormAccepts | src/app/api/structure/route.ts:15-28 | a session the setup form accepts, sent with a non-empty transcript, passes `validateSessionData` unchanged and is answered 200 |
| StructureRoute.ServerAcceptsBlankFieldsFormRejects | src/app/api/structure/route.ts:15-28 | a session with non-empty fields of which one is blank is rejected by the setup form, yet passes `validateSessionData` unchanged and is answered 200 |
| StructureRoute.MissingInput | src/app/api/structure/route.ts:8 | the first gate: the transcription or the session data is falsy |
| StructureRoute.IncompleteSession | src/app/api/structure/route.ts:15-19 | the second gate: name, description or objective is falsy |
| StructureRoute.PostOnPageRequest | src/app/api/structure/route.ts:8-28 | for the body a page sends, 200 exactly when the transcript and the three fields are non-empty, with `structureText`'s result; otherwise 400 |
| TranscribeRoute.AudioMissing | src/app/api/transcribe/route.ts:9 | `!audioFile`: the entry is absent or the empty string |
| TranscribeRoute.Post | src/app/api/transcribe/route.ts:4-33 | the status is 200, 400 or 500; 400 exactly for a readable form without audio; 200 exactly when audio is present and the speech service returns a transcript |
| TranscribeRoute.PostRejectsMissingAudio | src/app/api/transcribe/route.ts:9-14 | a missing or empty `audio` entry gives 400 "No audio file provided", whatever the speech service would do |
| TranscribeRoute.PostForwardsSpeechOutcome | src/app/api/transcribe/route.ts:17-22 | with audio present, a transcript gives 200 `{ transcription, success: true }` and a throw gives 500 with the error payload |
| TranscribeRoute.PostFailureCarriesDetails | src/app/api/transcribe/route.ts:23-32 | every 500 carries "Failed to transcribe audio" and, as details, the Error's message or "Unknown error"; the details are empty for an empty message |
| TranscribeRoute.PostPayloadsAreExclusive | src/app/api/transcribe/route.ts:4-33 | the status is 200, 400 or 500; `success: true` appears exactly in the 200 answer and `error` exactly in the others |
| AudioInput.HasAudio | src/components/AudioInput.tsx:171-176 | `hasAudioToTranscribe`: a truthy recording URL on the record tab, or a selected file on the upload tab |
| AudioInput.SourceFor | src/components/AudioInput.tsx:86-99 | a request exists exactly when `hasAudioToTranscribe` holds; a recording is sent as "recorded-audio.webm", a selected file under its own name |
| AudioInput.ContainsIffOccurs | src/components/AudioInput.tsx:142-144 | the `includes` test holds exactly when the text occurs as a substring |
| AudioInput.ErrorMessageFor | src/components/AudioInput.tsx:137-149 | an Error mentioning "upload" gives the upload message; otherwise one mentioning "transcribe" gives the transcribe message; anything else, including a non-Error, gives the generic message |
| AudioInput.ReadReply | src/components/AudioInput.tsx:129-136 | reads `success` by truthiness and `transcription` and `error` as strings from the route's JSON |
| AudioInput.ReplyNotification | src/components/AudioInput.tsx:129-149 | the terminal callback is never processing; its error is empty exactly for a non-null reply whose `success` is truthy, and then it carries the transcript; otherwise its text is empty and its error is the route's error or "Failed to transcribe audio", the mapped message of a throw, or the generic message for a `null` body, whose property read throws |
| AudioInput.TranscribeTrace | src/components/AudioInput.tsx:99-154 | the callbacks of one transcription attempt: none without a source, else the processing notice and the terminal callback |
| AudioInput.TranscribeProtocol | src/components/AudioInput.tsx:99-154 | no callback without audio; otherwise exactly `("", true, "")` and then one non-processing terminal callback, whose error is empty exactly on success and whose text is empty whenever there is an error |
| AudioInput.HandlerReadsRouteAnswer | src/components/AudioInput.tsx:129-136 | a 200 answer of the transcribe route is reported as its transcript; a 400 or 500 as the route's own error text |
| AudioInput.JsonBodyIsNeverTranscribed | src/components/AudioInput.tsx:121-136 | a successful upload whose JSON post the route cannot read as a form ends in "Failed to transcribe audio" |
| AudioInput.Controller.TranscribeEnabled | src/components/AudioInput.tsx:327-331 | the transcribe button is shown with audio to transcribe and enabled while neither an upload nor a transcription is in flight |
| AudioInput.Controller.constructor | src/components/AudioInput.tsx:29-55 | the upload tab is active, there is no recording, file or preview URL, and nothing is in flight |
| AudioInput.Controller.SelectTab | src/components/AudioInput.tsx:184-203 | the chosen tab becomes active |
| AudioInput.Controller.RecordingAvailable | src/components/AudioInput.tsx:46-51 | the recorder's URL is stored, and a truthy one reports audio ready |
| AudioInput.Controller.HandleFileSelect | src/components/AudioInput.tsx:57-68 | a chosen file is selected with its object URL, then `("", false, "")` and audio ready are reported; no file leaves everything unchanged |
| AudioInput.Controller.HandleClear | src/components/AudioInput.tsx:70-84 | recording and file are dropped, an existing preview URL is revoked, then `("", false, "")` and no audio are reported; afterwards there is no audio to transcribe |
| AudioInput.Controller.BeginTranscribe | src/components/AudioInput.tsx:86-103 | returns the source choice; with none nothing changes; otherwise the upload phase starts with progress 0 and `("", true, "")` is reported; when the button is enabled the request always starts |
| AudioInput.Controller.UploadProgressed | src/components/AudioInput.tsx:111-113 | the progress becomes the reported percentage |
| AudioInput.Controller.UploadSettled | src/components/AudioInput.tsx:105-154 | a finished upload switches to the transcription phase; a throw reports the mapped message and clears both flags and the progress |
| AudioInput.Controller.ReplySettled | src/components/AudioInput.tsx:121-154 | the terminal callback `ReplyNotification` for the route's answer (including a `null` body) is reported, and both flags and the progress are cleared |
| AudioInput.Controller.HandleTranscribe | src/components/AudioInput.tsx:86-155 | the reported callbacks are exactly `TranscribeTrace` for the source choice and the outcomes; the component ends idle with progress 0 |
| SessionSetup.TrimStart | src/components/SessionSetup.tsx:26-28 | drops exactly the leading white space: a suffix of the input, whose dropped part is white space and whose first character is not |
| SessionSetup.TrimEnd | src/components/SessionSetup.tsx:26-28 | drops exactly the trailing white space: a prefix of the input, whose dropped part is white space and whose last character is not |
| SessionSetup.Trim | src/components/SessionSetup.tsx:26-28 | `trim()`: no longer than the input, and a non-empty result neither starts nor ends with white space |
| SessionSetup.IsFormValid | src/components/SessionSetup.tsx:34-37 | `isFormValid`: all three fields are non-empty after trimming |
| SessionSetup.TrimEmptyIffBlank | src/components/SessionSetup.tsx:34-37 | a field trims to "" exactly when it is all white space |
| SessionSetup.FormValidIffNoBlankField | src/components/SessionSetup.tsx:34-37 | the form is valid exactly when every field has a character that is not white space |
| SessionSetup.BlankFieldInvalidatesForm | src/components/SessionSetup.tsx:34-37 | one whitespace-only (or empty) field makes the form invalid |
| SessionSetup.Form.constructor | src/components/SessionSetup.tsx:14-18 | all three fields start empty and the form starts invalid |
| SessionSetup.Form.HandleInputChange | src/components/SessionSetup.tsx:20-22 | the named field takes the value and the other two are unchanged |
| SessionSetup.Form.HandleSubmit | src/components/SessionSetup.tsx:24-32 | `onSessionComplete` is called once with the untrimmed fields exactly when no field is blank, and not at all otherwise |
| BrainDumpPage.Wizard.MayNavigateTo | src/app/brain-dump/page.tsx:112-123 | the targets navigation accepts: 1 always, 2 with a session, 3 with a transcript, 4 with a structured result |
| BrainDumpPage.Wizard.BackOffered | src/app/brain-dump/page.tsx:129 | the back button is rendered from step 2 on |
| BrainDumpPage.Wizard.ContinueToTranscriptionOffered | src/app/brain-dump/page.tsx:142 | the step-2 forward button is rendered at step 2 once audio is ready |
| BrainDumpPage.Wizard.ContinueToStructuringOffered | src/app/brain-dump/page.tsx:154 | the step-3 forward button is rendered at step 3 with a transcript and no transcription in flight |
| BrainDumpPage.Wizard.GenerateOffered | src/app/brain-dump/page.tsx:211-214 | the generate panel is rendered at step 4 without a structured result and without a request in flight |
| BrainDumpPage.Wizard.constructor | src/app/brain-dump/page.tsx:34-43 | step 1, everything empty, no session, no result |
| BrainDumpPage.Wizard.HandleSessionComplete | src/app/brain-dump/page.tsx:45-48 | the session data is stored and step 2 is shown |
| BrainDumpPage.Wizard.HandleTranscriptionChange | src/app/brain-dump/page.tsx:50-71 | the three arguments are copied; the result and its error are cleared exactly when the text differs; step 3 on processing or on a text without an error, otherwise the step is unchanged; the step stays within 1..4 |
| BrainDumpPage.Wizard.HandleAudioReady | src/app/brain-dump/page.tsx:73-75 | `hasAudio` becomes the argument |
| BrainDumpPage.Wizard.BeginStructuring | src/app/brain-dump/page.tsx:77-82 | no change without a transcript or session; otherwise the request is in flight, the error cleared, step 4 shown and the generate panel hidden |
| BrainDumpPage.Wizard.CompleteStructuring | src/app/brain-dump/page.tsx:84-109 | an ok response's JSON is stored; non-ok or a throw sets the fixed error and keeps the result; the request ends |
| BrainDumpPage.Wizard.HandleGenerateStructuredOutput | src/app/brain-dump/page.tsx:77-110 | a no-op without a transcript or session; otherwise step 4, then the result on success or the fixed error with the old result kept, always ending with no request in flight |
| BrainDumpPage.Wizard.HandleStepNavigation | src/app/brain-dump/page.tsx:112-123 | step 1 always; step 2 only with a session, 3 only with a transcript, 4 only with a result; any other target leaves the step; only the step changes |
| BrainDumpPage.Wizard.Back | src/app/brain-dump/page.tsx:129-139 | offered from step 2 on; moves to the previous step when navigation allows it, otherwise stays; from step 2 it always reaches step 1 |
| BrainDumpPage.Wizard.ContinueToTranscription | src/app/brain-dump/page.tsx:142-152 | offered at step 2 with audio ready; shows step 3 |
| BrainDumpPage.Wizard.ContinueToStructuring | src/app/brain-dump/page.tsx:154-164 | offered at step 3 with a transcript and no transcription in flight; shows step 4 |
| HomePage.Wizard.Step4PanelShown | src/app/page.tsx:163 | the step-4 panel is rendered from step 4 on with a transcript and session data |
| HomePage.Wizard.GenerateEnabled | src/app/page.tsx:166-177 | the generate button is rendered in that panel without a structured result, and enabled while no request is in flight |
| HomePage.Wizard.constructor | src/app/page.tsx:34-43 | step 1, everything empty, no session, no result; the reset rule holds |
| HomePage.Wizard.ApplyResetRule | src/app/page.tsx:115-129 | when transcript, processing, error and audio are all cleared, step 2 with a session and step 1 without; otherwise the step stays |
| HomePage.Wizard.HandleSessionComplete | src/app/page.tsx:45-48 | the session data is stored and step 2 is shown |
| HomePage.Wizard.HandleTranscriptionChange | src/app/page.tsx:50-71 | the arguments are copied; the result is cleared exactly when the text differs; step 3 on processing, step 4 on a text without an error, the reset step when everything is cleared, otherwise unchanged |
| HomePage.Wizard.HandleAudioReady | src/app/page.tsx:73-78 | `hasAudio` is recorded; losing audio with a session shows step 2; otherwise the step is untouched unless the reset rule applies |
| HomePage.Wizard.BeginStructuring | src/app/page.tsx:80-84 | no change without a transcript or session; otherwise the request is in flight and the error cleared, the step unchanged; an enabled generate button always starts it and is disabled afterwards |
| HomePage.Wizard.CompleteStructuring | src/app/page.tsx:86-111 | an ok response's JSON is stored; non-ok or a throw sets the fixed error and keeps the result; the request ends |
| HomePage.Wizard.HandleGenerateStructuredOutput | src/app/page.tsx:80-112 | same guard and outcomes as the brain-dump page, with `currentStep` never changed and no request left in flight |
| ProfilePage.WithoutId | src/app/profile/page.tsx:51 | the `filter` by id: never longer than the list, and no remaining entry has the id |
| ProfilePage.WithoutIdMembers | src/app/profile/page.tsx:51 | the filtered list holds exactly the old entries whose id differs, and is no longer than the old list |
| ProfilePage.WithoutIdAppend | src/app/profile/page.tsx:51 | filtering distributes over concatenation, so the kept entries stay in their original order |
| ProfilePage.WithoutIdAbsent | src/app/profile/page.tsx:51 | a list with no entry of that id is left as it is |
| ProfilePage.WithoutIdIdempotent | src/app/profile/page.tsx:51 | filtering twice by the same id equals filtering once |
| ProfilePage.WithoutIdShrinksIffPresent | src/app/profile/page.tsx:51 | the list gets shorter exactly when some entry had the id |
| ProfilePage.SessionList.constructor | src/app/profile/page.tsx:12-14 | an empty list with the loading indicator on and no error |
| ProfilePage.SessionList.LoadSessions | src/app/profile/page.tsx:22-42 | nothing without a user; otherwise the error is cleared, the list becomes the service's result or the fixed load error is set with the list kept, and loading ends off |
| ProfilePage.SessionList.HandleDeleteSession | src/app/profile/page.tsx:44-56 | a cancelled confirmation changes nothing; otherwise one delete call; on success the list loses exactly the entries with that id, in order; on failure the list stays and the fixed message is alerted |

## Left out

- JSX rendering and styling. This covers the header, footer, layout, step indicator, transcript view and structured-output view. Only the conditions that show or enable buttons and panels are modelled, as predicates.
- The OpenAI Whisper call, the LangChain prompt and JSON parser, and the prompt wording. These are foreign services, and each becomes an outcome parameter.
- Vercel Blob and `src/app/api/upload-audio/route.ts`. The MIME allowlist, the 50 MB limit and the expiry are enforced inside the library. The upload is an outcome parameter.
- Firestore and Firebase Auth (`src/lib/sessionService.ts`, `src/contexts/AuthContext.tsx`). The user is an optional uid. Each service call is an outcome. The query's filter and order, and what a delete does to the store, are not modelled.
- The login redirect and the new-session navigation of the profile page. They are router calls with no state of the page.
- Interleavings of asynchronous handlers, and React's stale closures. Each handler runs to completion over the state it starts from. For example, `HandleDeleteSession` filters the current list, not the list captured at render time.
- AudioInput.Controller.BeginTranscribe: the recording's `fetch(mediaBlobUrl)` and `blob()` run before the `try`, so a failure there rejects the handler with the flags untouched. The model treats the recording as always readable.
- AudioInput.Controller.UploadProgressed: receives the already rounded integer percentage. The floating-point `Math.round` of the library's progress, and the megabyte display of the file size, are not modelled.
- AudioInput.ReadReply: a `transcription` or `error` field that is not a string is read as "". In JavaScript a non-string value would pass through unchanged.
- AudioInput: `hideTranscribeButton` only hides the button, and is not modelled. Neither is `handleTranscribe` being exposed through a ref (a parent could call it while a request is in flight, which the model's precondition excludes). Neither is the download button.
- The page interfaces' `keyTakeaways` field. The pages store whatever JSON the route returned, and the schema strips that key.
- HomePage: the reset effect is applied after every handler. React runs it only when one of its dependencies changed. The two agree whenever the invariant holds on entry. The effect acts only when everything is cleared. If no dependency changed and everything is cleared afterwards, it was cleared on entry too, so the invariant had already put the step at the reset step. In that case no handler moves the step: with nothing processing and no text, `HandleTranscriptionChange` leaves it, and `HandleAudioReady(false)` sets 2 only when a session makes 2 the reset step.
- The recording controls (start, stop), the recorder status and the microphone permission. They belong to the recorder library.
