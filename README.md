# Healthcare translator: a Dafny model of its decision logic

The healthcare translator is a small Next.js application. Speech recognition,
transcription, translation and speech synthesis are all done by outside
services or by the browser. What remains is decision logic over their replies,
and this project models and proves that logic:

- **The transcription route** (`src/app/api/assemblyai/route.ts`,
  module `TranscriptionRoute`). It runs a fixed chain of guards: the API key,
  then the `audio` form field, then the upload reply's `upload_url`, then the
  submission reply's job `id`. After that it polls the job's status up to 30
  times and maps every path to an HTTP status and a JSON body.
  `TranscriptionRoute.Post` and `PollUntilDone` are imperative methods that
  follow the handler step by step. They are proved equal to the reference
  function `Transcribe`. The lemmas about `Transcribe` state the route's
  guarantees.
- **The translation route** (`src/app/api/translate/route.ts`,
  module `TranslationRoute`). It checks the key, builds the prompt from a fixed
  template and issues one request with fixed parameters. From the reply it
  takes the first completion, trimmed, or `""` when there is none. This code
  is pure, so it is modelled as functions.
- **The page** (`src/app/page.tsx`, module `TranslatorPage`). Pure
  functions cover how final recognition results are joined and appended to the
  transcript, the ` \[interim\].*$` replacement, and the condition that sends
  the transcript for translation. The class `Page` holds the page's React
  state. Its methods are the page's handlers: `startListening`,
  `stopListening`, `onend`, `onresult`, `handleTranslate`, the effect that
  runs when the transcript changes, and `handleSpeak`.
- **Shared pieces.** Module `Js` holds JavaScript truthiness and `||`
  defaulting. It also holds `String.prototype.trim`, defined over ECMAScript's
  WhiteSpace and LineTerminator code points. Module `Http` holds the
  responses.

Every provider reply and every browser event is an input value. Each provider
call also has a "threw" variant: the fetch failed, the reply was not JSON, or
the JSON was `null`. The page only ever posts to the translation route; no code
in the page calls the transcription route.

The model follows the code in these places where the code's behaviour is worth
stating:

- In the transcription route, the initial `status` of the submission reply is
  overwritten before it is read. So at least one poll always happens
  (`SubmitStatusIgnored`, `PollsTargetJob`).
- A `completed` poll with an empty or missing `text` ends the loop. The route
  then reports it as a 504 timeout, not as a success (`TimesOutIff`).
- Every presence check is JavaScript truthiness, so an empty string counts as
  missing.
- In the translation route, the request body is read before the key check and
  outside the `try` block. A malformed body therefore rejects the handler
  instead of producing the handler's own error response (`MalformedBodyRejects`).
- When the language model's reply has no completion, the translation route
  answers 200 with `translated: ""`, not an error. A reply that is an error
  object from the provider gets the same answer.

## Model

| member | source | states |
|---|---|---|
| `Js.TrimStart` | src/app/api/translate/route.ts:28 | the result is a suffix of the input, everything dropped is white space or a line terminator, and the result does not start with one |
| `Js.TrimEnd` | src/app/api/translate/route.ts:28 | the result is a prefix of the input, everything dropped is white space or a line terminator, and the result does not end with one |
| `Js.Trim` | src/app/api/translate/route.ts:28 | `trim` returns a slice of its input, only trimmable characters are cut at either end, and the slice neither starts nor ends with one |
| `Js.TrimBlank` | src/app/page.tsx:96 | a string trims to "" exactly when all of its characters are white space or line terminators |
| `Js.TrimIdempotent` | src/app/api/translate/route.ts:28 | trimming twice gives the same as trimming once |
| `TranscriptionRoute.FirstStop` | src/app/api/assemblyai/route.ts:47-60 | the index of the first poll reply that ends the loop (a throw, `completed` or `error`); no earlier reply ends it; `MaxPolls` when none of the first 30 does |
| `TranscriptionRoute.PollCount` | src/app/api/assemblyai/route.ts:47-60 | the loop runs between 1 and 30 polls; every poll before the last one was left running, and fewer than 30 polls means the last one ended the loop |
| `TranscriptionRoute.PollOutcome` | src/app/api/assemblyai/route.ts:47-64 | the loop's response is 200, 500 or 504; it is 200 exactly when the stopping reply is `completed` with a non-empty text, and then that text is the transcript |
| `TranscriptionRoute.Transcribe` | src/app/api/assemblyai/route.ts:5-68 | the handler rejects exactly when the key is present and the form cannot be read; every response is 200, 400, 500 or 504; at most 32 requests go out, and each carries the key |
| `TranscriptionRoute.Post` | src/app/api/assemblyai/route.ts:5-68 | the handler's response and its requests, in order, equal the reference `Transcribe` for every key, form and provider reply |
| `TranscriptionRoute.PollUntilDone` | src/app/api/assemblyai/route.ts:44-64 | the poll loop issues exactly `PollCount` requests for the job and ends with the response `PollOutcome` gives for the first reply that stops it |
| `TranscriptionRoute.MissingKeyAnsweredFirst` | src/app/api/assemblyai/route.ts:6-9 | a missing or empty key gives 500 "Missing AssemblyAI API key" before the form is read and before any request |
| `TranscriptionRoute.NoAudioNoUpload` | src/app/api/assemblyai/route.ts:10-14 | an absent or empty `audio` field gives 400 "No audio file provided" and no upload |
| `TranscriptionRoute.UploadWithoutUrlNoSubmit` | src/app/api/assemblyai/route.ts:16-25 | an upload reply without a truthy `upload_url` gives 500 "Failed to upload audio to AssemblyAI" after the upload and with no submission |
| `TranscriptionRoute.SubmissionCarriesUploadUrl` | src/app/api/assemblyai/route.ts:26-43 | the submission carries the returned `upload_url`, `language_code` "auto", `punctuate` and `format_text`; a reply without a truthy `id` gives 500 "Failed to start transcription" and no poll |
| `TranscriptionRoute.PollsTargetJob` | src/app/api/assemblyai/route.ts:44-60 | once polling starts, every poll names the submitted job; there are between 1 and 30 polls, one more than the index of the first reply that ends the loop, or 30 |
| `TranscriptionRoute.SubmitStatusIgnored` | src/app/api/assemblyai/route.ts:45-53 | the status in the submission reply never changes the response or the requests |
| `TranscriptionRoute.JobErrorPassesMessage` | src/app/api/assemblyai/route.ts:57-59 | a first stopping reply with status `error` gives 500 with the provider's message when it is non-empty, else "Transcription failed" |
| `TranscriptionRoute.SucceedsIff` | src/app/api/assemblyai/route.ts:54-64 | 200 exactly when the first stopping reply is `completed` with a non-empty text, and that text is the transcript |
| `TranscriptionRoute.TimesOutIff` | src/app/api/assemblyai/route.ts:54-63 | 504 "Transcription timed out" exactly when 30 polls end nothing, or when the first stopping reply is `completed` with an empty or missing text |
| `TranscriptionRoute.ThrowGivesGenericFailure` | src/app/api/assemblyai/route.ts:15-67 | a throw in the upload, the submission or the stopping poll gives 500 "AssemblyAI transcription failed" |
| `TranscriptionRoute.NoPartialTranscript` | src/app/api/assemblyai/route.ts:5-68 | only a 200 carries a transcript; every other response is an error body with status 400, 500 or 504 |
| `TranscriptionRoute.ThreePollScenario` | src/app/api/assemblyai/route.ts:44-64 | job "abc123" answering `processing` twice and then `completed` "Hello doctor" gives that transcript after exactly three polls of that job |
| `TranslationRoute.Prompt` | src/app/api/translate/route.ts:10 | the prompt reads, segment by segment: the fixed instruction, the source language, " to ", the target language, ". Only return the translated text." and a blank line, then the text |
| `TranslationRoute.ChatRequestFor` | src/app/api/translate/route.ts:11-26 | the request uses model gpt-3.5-turbo, `max_tokens` 512, `temperature` 0.3, the bearer key and exactly the system message then the user prompt |
| `TranslationRoute.FirstContent` | src/app/api/translate/route.ts:28 | the optional chain yields content exactly when `choices` exists, is non-empty, and its first entry has a message with content |
| `TranslationRoute.Extract` | src/app/api/translate/route.ts:28 | the translation is the trimmed first content, or "" when there is none |
| `TranslationRoute.Post` | src/app/api/translate/route.ts:3-33 | the handler rejects exactly when the body is unreadable; a request goes out exactly when the body is readable and the key is present; every response is 200 with a translation or 500 with an error, and 200 only when the reply did not throw |
| `TranslationRoute.MissingKeyNoRequest` | src/app/api/translate/route.ts:5-8 | a missing or empty key gives 500 "Missing OpenAI API key" and no request |
| `TranslationRoute.MalformedBodyRejects` | src/app/api/translate/route.ts:3-9 | an unreadable body rejects the handler, whatever the key, with no request |
| `TranslationRoute.RequestCarriesPrompt` | src/app/api/translate/route.ts:10-26 | with a key, exactly one request is sent, and its user message is the template filled with the body's languages and text |
| `TranslationRoute.SuccessIsTrimmedContent` | src/app/api/translate/route.ts:27-29 | a reply gives 200 `{translated}` where `translated` is the first content with only trimmable characters removed at either end |
| `TranslationRoute.LenientFallback` | src/app/api/translate/route.ts:28 | missing `choices`, an empty list, a missing message or content, or blank content all give 200 with `translated: ""` |
| `TranslationRoute.PaddedCompletion` | src/app/api/translate/route.ts:28-29 | the completion "  Hola  " is returned as "Hola" |
| `TranslationRoute.ThrowGivesGenericFailure` | src/app/api/translate/route.ts:30-32 | a throw inside the `try` block gives 500 "Translation failed" |
| `TranslatorPage.FinalsFrom` | src/app/page.tsx:41-46 | every final transcript from the index on fits inside the concatenation, and with no final result from the index on it is empty |
| `TranslatorPage.CollectFinal` | src/app/page.tsx:41-46 | the loop yields the in-order, separator-free concatenation of the final results from `resultIndex` on; a negative index throws |
| `TranslatorPage.FinalsAppend` | src/app/page.tsx:42-45 | a final result contributes its transcript appended after the earlier ones, with no separator |
| `TranslatorPage.NonFinalContributesNothing` | src/app/page.tsx:43-45 | replacing a non-final result by any other non-final result leaves the concatenation unchanged |
| `TranslatorPage.FinalsEmptyIff` | src/app/page.tsx:41-47 | the concatenation is empty exactly when every final result from the index on has an empty transcript |
| `TranslatorPage.Appended` | src/app/page.tsx:47 | appending keeps the old transcript as a prefix, adds one space after a non-empty one, and the new text can be read back off the end |
| `TranslatorPage.AfterResult` | src/app/page.tsx:38-48 | the transcript only grows, and an event without `resultIndex` and `results`, or with a negative index, leaves it as it was |
| `TranslatorPage.ResultExtendsTranscript` | src/app/page.tsx:38-48 | the old transcript is always a prefix of the new one; it changes exactly when the event is well formed and has a final result with non-empty text from `resultIndex` on |
| `TranslatorPage.FirstInterimMatch` | src/app/page.tsx:68 | the leftmost position where " [interim]" starts and no line terminator follows it |
| `TranslatorPage.StripInterim` | src/app/page.tsx:68 | stripping gives a prefix of the input, unchanged exactly when the pattern matches nowhere, and otherwise cut at the leftmost match |
| `TranslatorPage.StripIdempotent` | src/app/page.tsx:154 | stripping twice gives the same as stripping once |
| `TranslatorPage.ShouldTranslate` | src/app/page.tsx:96 | a translation is requested only for a transcript that stays non-empty after stripping |
| `TranslatorPage.ShouldTranslateIff` | src/app/page.tsx:95-100 | a translation is requested exactly when the stripped transcript holds a character that is neither white space nor a line terminator |
| `TranslatorPage.Settle` | src/app/page.tsx:73-83 | a failed fetch or an unreadable reply shows "Translation failed. Please try again."; a non-empty `error` is shown with no translation; otherwise `translated` or "" is shown; one settled call never shows an error and a translation together |
| `TranslatorPage.TranslateEndToEnd` | src/app/page.tsx:60-84 | page and route together: with a key, the route is asked to translate the stripped transcript and the page shows the trimmed completion; without a key, the page shows "Missing OpenAI API key" |
| `TranslatorPage.Page.constructor` | src/app/page.tsx:19-25 | the page starts not listening, with empty texts, languages en-US and es-ES, and no recogniser |
| `TranslatorPage.Page.Displayed` | src/app/page.tsx:154 | the transcript box shows a prefix of the transcript |
| `TranslatorPage.Page.StartListening` | src/app/page.tsx:27-53 | without support nothing changes; otherwise a continuous recogniser with interim results for the input language is current and the page is listening |
| `TranslatorPage.Page.StopListening` | src/app/page.tsx:55-58 | the page stops listening |
| `TranslatorPage.Page.OnEnd` | src/app/page.tsx:49 | the page stops listening when recognition ends |
| `TranslatorPage.Page.OnResult` | src/app/page.tsx:38-48 | the transcript becomes `AfterResult` of the old one and keeps the old one as a prefix |
| `TranslatorPage.Page.EditTranscript` | src/app/page.tsx:155 | typing replaces the transcript |
| `TranslatorPage.Page.SelectInputLang` | src/app/page.tsx:114 | choosing an input language sets it |
| `TranslatorPage.Page.SelectOutputLang` | src/app/page.tsx:130 | choosing an output language sets it |
| `TranslatorPage.Page.HandleTranslate` | src/app/page.tsx:60-84 | the stripped transcript is posted with both languages, and error and translation become what `Settle` gives for the response |
| `TranslatorPage.Page.TranscriptChanged` | src/app/page.tsx:94-102 | a non-blank stripped transcript is sent for translation; otherwise the translation is cleared and nothing is posted |
| `TranslatorPage.Page.HandleSpeak` | src/app/page.tsx:86-92 | a non-empty translation is spoken in the output language; an empty one speaks nothing |

## Left out

- HTTP, `fetch`, JSON parsing, `FormData` and `NextResponse` are not modelled as code. Provider replies are input values, and responses are values of `Http.Outcome`.
- The AssemblyAI and OpenAI endpoint URLs, the `content-type` headers and `runtime = 'nodejs'` are not modelled. They decide nothing.
- The one-second wait before each poll, wall-clock time, `async`/`await` and concurrent requests are not modelled. The wait has no effect on the outcome, and each handler runs as one uninterrupted step.
- When a handler rejects (`Http.Rejected`), the framework sends its own error page. What that page contains is not modelled.
- Provider reply fields are modelled as absent or strings. A field holding a number, an object or another non-string value is not modelled. Neither is `${null}` in the prompt template, which prints "null" where the model treats it as absent.
- TranscriptionRoute.Post: requires one scripted reply for each of the 30 possible polls. The source has no such precondition. The scripted replies stand for whatever the provider answers, and replies after the loop stops are never read.
- Speech recognition, speech synthesis and `window` feature detection are not modelled. Feature detection is a boolean parameter. The recogniser's `start()` and `stop()` calls and the `alert` are browser effects the model does not record.
- React rendering, hook scheduling, stale closures, JSX, styling, the disabled attributes and the `LANGUAGES` table are not modelled.
- TranslatorPage.Page.HandleTranslate: the clearing of `error` and `translated` before the request is not observable, because the reply is applied in the same step.
- TranslatorPage.Page.HandleTranslate and TranslatorPage.Page.TranscriptChanged: each call is posted and settled in one step, so two overlapping calls are not modelled. In the page they can settle out of order, which can leave a stale translation on screen, or an error from one call beside the translation from another. `Page.Valid` holds only after a call has settled with no other call pending.
- JavaScript strings are UTF-16 code units. The model's strings are Unicode scalar values, so an unpaired surrogate has no counterpart.
- The translation's content and quality, and the transcription's, are out of scope.
