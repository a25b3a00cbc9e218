# Social media post analyzer: workflow and service model

This Dafny project models the logic of a browser front-end. The front-end takes a dropped PDF or
image, produces its text, and asks a hosted generative-language API for two things: an
engagement analysis and three tone rewrites. Three pieces of the program have logic of their own,
and each is modelled as pure functions over immutable values:

- **The upload hook** (`src/hooks/useFileUpload.js`). Its state has four fields: the phase
  (`idle`, `loading-file`, `file-uploaded`), the extracted text, the loading flag and the error.
  The asynchronous upload is split into `Start`, which runs when a file is handed over, and
  `Complete`, the timer callback. A third event is `Reset`. Extraction is the hook's canned
  decision on the media type and the file name.
- **The analysis hook** (`src/hooks/useAIAnalysis.js`). Analyze and rewrite each have a start, a
  success and a failure transition. Each operation has its own flag and its own result slot, and
  the two share one error slot. `Reset` is the third kind of event.
- **The service adapter** (`src/utils/aiService.js`). It builds the request body from a prompt
  and a response schema. It checks the HTTP status, then reads
  `candidates[0].content.parts[0].text` through optional chaining and hands that text to the
  JSON parser. It also builds the analysis and rewrite prompt/schema pairs.

Modules:

| file | module | contents |
|---|---|---|
| wrappers.dfy | Wrappers | `Option` (also JavaScript's `undefined`) and `Result` (a value or a thrown error) |
| decimal.dfy | Decimal | decimal rendering of a status code or index, and reading it back |
| json.dfy | Json | JSON values, key lookup, falsiness, property reads and optional chaining |
| schema.dfy | Schema | response schemas: their typed form, their JSON form, and what conforming would mean |
| ai_service.dfy | AiService | request body, response decoding, `makeAPIRequest`, the two prompts and schemas |
| file_upload.dfy | FileUpload | upload hook transitions, traces of uploads and resets |
| ai_analysis.dfy | AiAnalysis | analysis hook transitions, their composition with the service, traces with pending requests |

The network call is the parameter `send`: it takes the request body and returns a network failure
or a response. The response's status and body are free, and a body of `None` means
`response.json()` rejected. `JSON.parse` is the parameter `parse`, which takes the value found at
the text path. The timer is reduced to the `Complete` event, whenever it arrives. Every
interleaving the program allows is therefore a sequence of transitions, and the lemmas say which
sequences reach which states.

Three behaviours of the code depend on interleaving, and the model states them as the code does
them:

- A reset does not cancel a pending extraction or API call. The completion still writes its
  result after the reset.
- The success branch of the upload completion does not clear the error. Neither does an analyze
  or rewrite success.
- The analysis hook has no in-flight guard. A second start is accepted, and the first completion
  lowers the flag while the other request is still outstanding. The flag tracks outstanding
  requests only when callers obey the flag half of the buttons' disable conditions.
  `GuardedFlagsTrack` takes that as an assumption about callers; it is not part of the hook
  model.

The code lacks several safeguards a reader might expect, and the model does not add them:

- The code has no size limit, no real OCR or PDF parsing and no progress percentage.
- The code has no request epoch or stale-result guard.
- The code sends no `temperature` setting.
- The code does not fail fast on a missing API key.
- The code does not guard against a second analysis while one is in flight.
- The code does not treat an extraction that yields only whitespace as a failure.
- In the code, an error and a success result can both be present, because the error slot is
  shared.

## Model

| member | source | states |
|---|---|---|
| FileUpload.MockText | src/hooks/useFileUpload.js:18 | the canned extraction is non-empty and starts with `Extracted text from <name>: "` |
| FileUpload.MockTextInjective | src/hooks/useFileUpload.js:18 | different file names give different extracted texts, so the name can be recovered from the text |
| FileUpload.InitialSettled | src/hooks/useFileUpload.js:4-7 | the initial state (idle, empty text, no error, not loading) is one of the settled states |
| FileUpload.Start | src/hooks/useFileUpload.js:10-13 | handing over a file clears error and text, raises the loading flag and enters `loading-file` |
| FileUpload.StartForgets | src/hooks/useFileUpload.js:10-13 | the state after a start does not depend on the state before it |
| FileUpload.Complete | src/hooks/useFileUpload.js:16-26 | a supported type (`image/` prefix or `application/pdf`) writes the canned text and `file-uploaded` and keeps the error; any other type writes `Unsupported file type.` and `idle` and keeps the text; the flag always ends false |
| FileUpload.Reset | src/hooks/useFileUpload.js:29-33 | reset clears text and error and enters `idle`, leaving the loading flag as it was |
| FileUpload.ResetInitial | src/hooks/useFileUpload.js:29-33 | reset applied to the initial state changes nothing |
| FileUpload.StartThenComplete | src/hooks/useFileUpload.js:10-25 | a start followed by its own completion ends in exactly one of two states, and the media type decides which: loaded with the canned text and no error, or idle with no text and the unsupported-type error |
| FileUpload.ResetDoesNotCancel | src/hooks/useFileUpload.js:16-33 | after start then reset the flag is still up, and the late completion still writes text, phase and flag |
| FileUpload.SequentialStaysSettled | src/hooks/useFileUpload.js:9-33 | in any trace where each start is immediately followed by its completion, with resets in between, the state at the end of the trace is settled |
| FileUpload.InterleavedUploadsMix | src/hooks/useFileUpload.js:16-26 | with two overlapping uploads, the end state can be a loaded file showing the unsupported-type error, or an idle hook still holding text; neither state is settled |
| FileUpload.SpinnerStopsEarly | src/hooks/useFileUpload.js:12-25 | the first of two overlapping completions lowers the loading flag while the second upload is still pending |
| AiAnalysis.StartAnalyze | src/hooks/useAIAnalysis.js:11-16 | empty text changes nothing; otherwise the flag goes up and the analysis and the error are cleared; the rewrite fields are never touched |
| AiAnalysis.AnalyzeOk | src/hooks/useAIAnalysis.js:19-26 | the result is stored verbatim and the flag goes down; the error and the rewrite fields are kept |
| AiAnalysis.AnalyzeFail | src/hooks/useAIAnalysis.js:21-26 | the fixed analysis error is written and the flag goes down; the analysis slot and the rewrite fields are kept |
| AiAnalysis.FinishAnalyze | src/hooks/useAIAnalysis.js:18-26 | a completion with a service outcome stores the value on success, or writes the analysis error on failure, and always lowers the flag |
| AiAnalysis.StartRewrite | src/hooks/useAIAnalysis.js:29-34 | empty text changes nothing; otherwise the rewrite flag goes up and the rewrites and the error are cleared; the analysis fields are never touched |
| AiAnalysis.RewriteOk | src/hooks/useAIAnalysis.js:37-44 | the rewrites are stored verbatim and the flag goes down; the error and the analysis fields are kept |
| AiAnalysis.RewriteFail | src/hooks/useAIAnalysis.js:39-44 | the fixed rewrite error is written and the flag goes down; the rewrite slot and the analysis fields are kept |
| AiAnalysis.FinishRewrite | src/hooks/useAIAnalysis.js:36-44 | the rewrite completion mirrors the analyze completion on the rewrite fields |
| AiAnalysis.Reset | src/hooks/useAIAnalysis.js:47-51 | reset clears both results and the error, and leaves both flags as they were |
| AiAnalysis.ResultsCommute | src/hooks/useAIAnalysis.js:14-44 | analyze and rewrite successes commute with each other, and so do their starts |
| AiAnalysis.SharedErrorLastWriteWins | src/hooks/useAIAnalysis.js:16-41 | in the shared error slot the most recent failure wins, and starting either operation erases the other's failure |
| AiAnalysis.SuccessKeepsError | src/hooks/useAIAnalysis.js:19-26 | an analysis success leaves a rewrite failure's message in place |
| AiAnalysis.ResetDoesNotCancel | src/hooks/useAIAnalysis.js:47-51 | reset during an analysis leaves the flag up, and the late result still fills the slot that reset cleared |
| AiAnalysis.AnalyzeRound | src/hooks/useAIAnalysis.js:11-27 | `handleAnalyze` from start to completion: empty text changes nothing; otherwise the run ends with the flag down and the rewrite half untouched, holding either the service value with no error, or null with the analysis error |
| AiAnalysis.StubbedReplyStored | src/hooks/useAIAnalysis.js:19-20 | a 200 reply whose text parses to `v` leaves exactly `v` in the analysis slot, with the flag down and no error |
| AiAnalysis.ServerErrorKeepsRewrites | src/hooks/useAIAnalysis.js:21-26 | a status-500 reply surfaces the analysis error and keeps a previous rewrite result |
| AiAnalysis.InitialTracks | src/hooks/useAIAnalysis.js:5-9 | the hook's initial state (both results null, both flags down, no error) with nothing outstanding satisfies the flag invariant |
| AiAnalysis.GuardedFlagsTrack | src/hooks/useAIAnalysis.js:11-45 | if callers respect the flag half of the buttons' disable conditions, starting an operation only while its flag is down, each flag is up exactly while a request of its kind is outstanding |
| AiAnalysis.UnguardedFlagDropsEarly | src/hooks/useAIAnalysis.js:11-26 | without that guard, two starts and one completion leave the flag down with a request still outstanding |
| Json.Chain | src/utils/aiService.js:24 | optional chaining on null or undefined yields undefined |
| Json.Member | src/utils/aiService.js:24 | a property read finds something only on objects, arrays and strings; on an object it reads the named key, or the decimal spelling of an index; on an array it reads an index within bounds; on a string it reads the one-character string at an index within bounds |
| Json.Truthy | src/utils/aiService.js:26 | a value is falsy, so `!text` holds, exactly when it is `null`, `false`, `0` or `""` |
| Decimal.Show | src/utils/aiService.js:20 | the status is printed as a non-empty digit string with no leading zero |
| Decimal.ShowRead | src/utils/aiService.js:20 | a shortest-form digit string is the rendering of its own value, so that rendering is the only one |
| AiService.Payload | src/utils/aiService.js:5-11 | a server reading the body finds exactly the prompt at `contents[0].parts[0].text` and the schema at `generationConfig.responseSchema` |
| AiService.PayloadShape | src/utils/aiService.js:5-10 | the body has only `contents` and `generationConfig`; there is one `user` turn with one part holding the prompt; the config holds only the JSON MIME type and the schema |
| AiService.PayloadInjective | src/utils/aiService.js:5-10 | different prompts or schemas give different bodies |
| AiService.Message | src/utils/aiService.js:19-28 | the adapter's own messages are `HTTP error! status: <status>`, from which the status can be read back, and `Invalid response structure from API`; the other errors carry the platform's wording |
| AiService.HttpMessageUnique | src/utils/aiService.js:20 | any string that reads back as a status is exactly the HTTP error message for that status: the prefix followed by the status in shortest decimal form |
| AiService.ExtractText | src/utils/aiService.js:23-28 | a null body throws; otherwise the result is the value at `candidates[0].content.parts[0].text` when it is truthy, and otherwise the structure error |
| AiService.ExtractReply | src/utils/aiService.js:24-28 | path extraction gives back exactly the text of a canonical reply when that text is truthy, and reports a structure error when it is falsy |
| AiService.EmptyTextRejected | src/utils/aiService.js:26-27 | an empty-string text is reported as an invalid structure |
| AiService.MissingCandidates | src/utils/aiService.js:24-27 | a missing or empty `candidates` gives the structure error |
| AiService.MissingContent | src/utils/aiService.js:24-27 | a null first candidate gives the structure error |
| AiService.MissingParts | src/utils/aiService.js:24-27 | a content object without `parts` gives the structure error |
| AiService.MakeRequest | src/utils/aiService.js:4-31 | each failure carries the error of the step that raised it, checked in the code's order: a network failure, then a non-ok status (`HTTP error! status: <status>`), then a body that is not JSON, then the extraction's own error (null body, or the structure error for a missing or falsy text link), then a text that does not parse; success holds exactly when the status is ok, the body is JSON, the text path is truthy and the text parses; the value is the parse, unchanged |
| AiService.StatusBeforeBody | src/utils/aiService.js:19-23 | with a non-ok status the outcome is the HTTP error, whatever the body holds |
| AiService.ReplyRoundTrip | src/utils/aiService.js:19-30 | an ok reply with a truthy text yields exactly what parsing that text gives |
| AiService.UnembedEmbed | src/utils/aiService.js:35 | a post spliced between a fixed lead and tail can be cut back out unchanged |
| AiService.AnalyzePrompt | src/utils/aiService.js:34-36 | the analysis instruction quotes the post verbatim between its fixed lead and tail |
| AiService.RewritePrompt | src/utils/aiService.js:52-53 | the rewrite instruction quotes the post verbatim between its fixed lead and tail |
| Schema.Encode | src/utils/aiService.js:38-63 | the JSON form of a schema sent with the request has exactly the keys the literals at lines 38-46 and 55-63 write, in their order and with no others: `type` alone for a string or number, then `items` for an array, then `properties` and `required` for an object. The same holds at every level, because `items` holds the item schema's own JSON form and `properties` holds the form built by `EncodeProperties`. The result decodes back to the same schema |
| Schema.EncodeProperties | src/utils/aiService.js:40-44 | the `properties` object has one field per declared property, in order, named as the property and holding that property's schema in its own exact JSON form; it decodes back to the property list |
| Schema.EncodeInjective | src/utils/aiService.js:38-63 | different schemas have different JSON forms |
| AiService.AnalyzeSchemaMeaning | src/utils/aiService.js:38-46 | a value conforms to the analysis schema exactly when `engagementScore` is a number, `sentiment` is a string and `suggestions` is an array of strings, all three present |
| AiService.RewriteSchemaMeaning | src/utils/aiService.js:55-63 | a value conforms to the rewrite schema exactly when `casual`, `professional` and `excited` are all present strings |
| AiService.AnalyzeRequest | src/utils/aiService.js:33-48 | the analysis request body carries a prompt that quotes the post, and a schema that decodes to the analysis schema |
| AiService.RewriteRequest | src/utils/aiService.js:51-65 | the rewrite request body carries a prompt that quotes the post, and a schema that decodes to the rewrite schema |
| AiService.AnalyzePost | src/utils/aiService.js:33-49 | a non-ok status gives the HTTP error; a success is the parse of some truthy text |
| AiService.RewritePost | src/utils/aiService.js:51-66 | a non-ok status gives the HTTP error; a success is the parse of some truthy text |
| AiService.NoClientValidation | src/utils/aiService.js:30 | a reply whose text parses to `null` is a success, even though `null` does not conform to the analysis schema |

## Left out

- The network call is the `send` parameter. Its POST method, its `Content-Type` header and the
  URL carrying the API key (src/utils/aiService.js:1-2, 13-17) are not modelled. The body is a
  JSON value, and its `JSON.stringify` text is not modelled.
- `response.json()` and `JSON.parse` are foreign calls. The first is a response body that may be
  absent; the second is the `parse` parameter. `JSON.parse` converts a non-string text to a
  string first, and that conversion happens inside `parse`.
- Configuration: the API key silently defaults to an empty string. No configuration error exists
  in the code, and none is modelled.
- The two-second timer delay, `console.error` logging, and React's scheduling of re-renders. Each
  segment of a handler before or after an `await` is one transition. Every setter in those
  segments writes a plain value, so the order of the setters within a segment does not matter.
- The components under `src/components/` and `src/App.jsx` are rendering only. This includes
  the theme toggle, the clipboard copy and its timer, and the dropzone with its accept filter and
  its never-revoked preview URL. The analysis buttons' disable conditions are
  `isAnalyzing || hasAnalyzed` and `isRewriting || !extractedText`. Only their flag half
  appears, as the caller assumption in `GuardedFlagsTrack`.
- JavaScript numbers are reals. Only the falsiness of `0` matters here, and JSON cannot denote
  NaN.
- Strings are sequences of Unicode scalar values, not UTF-16 code units. This matters only for
  `?.[0]` on a string, which never leads to a valid text.
- Property reads: only the reads the adapter performs are modelled. These are the names
  `candidates`, `content`, `parts` and `text`, and integer indices. Inherited properties are left
  out, and so are the own names of arrays and strings, `length` and numeric names such as `"0"`,
  which the model reads as `undefined`. None of the left-out names is read by the adapter.
- AiService.Message: only the two messages the adapter writes are given. Errors raised by the
  platform (a rejected fetch, a `TypeError` on a null body, a `SyntaxError` from parsing) keep
  the platform's wording, which is not modelled.
- AiService.AnalyzePost and AiService.RewritePost: their contracts say only that a success is the
  parse of some truthy text. The exact success condition is stated on AiService.MakeRequest,
  which both call.
