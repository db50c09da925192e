# Tactical-analysis endpoint, modelled in Dafny

This project models the server side of a soccer-footage analysis app: the
`POST` handler of `app/api/analyze/tactics/route.ts`. The handler does the following:

- It takes a request naming either a stored upload (`filename`) or a preset video (`presetUrl`).
- It gets the video into the generative-AI provider's file service:
  - a stored file is checked against a 20 MiB limit, downloaded from the bucket and re-uploaded;
  - a preset video is fetched from its URL and uploaded.
- It polls the file service until the file is `ACTIVE`.
- It asks the model for a forced `saveTacticalReport` tool call and validates the call's arguments against the report schema.
- It maps every thrown error to an HTTP status by looking for substrings of the message.
- It always deletes the uploaded file in its `finally` block.

Every collaborator is an oracle. `Handler.Services` holds the reply each call gets: the bucket, `fetch`, upload, `getFile` and the model. The `k`-th `getFile` reply is a function of `k`. What `req.json()` gives or throws is the `request` parameter of `Handler.Try`, `Handler.Handle` and `Handler.Post`, and the value of `Date.now()` is their parameter `now`.

The handler is modelled twice:

- as specification functions: `Handler.Try` for the `try` block, `Handler.Respond` for the `catch`, `Handler.Cleanup` for the `finally`, and `Handler.Handle` for all three;
- as imperative methods: `Handler.Post`, `Handler.Analyze`, `Handler.PrepareStored`, `Handler.PreparePreset`, `Handler.AwaitAndReport` and the loop `Poller.AwaitActive`.

Each method is proved equal to its specification. A ghost log records every external call in order, and the lemmas about the handler are stated over that log.

Modules:

- `Wrappers`: `Option`.
- `Json`: JSON values and JavaScript truthiness.
- `Text`: the string operations the handler uses:
  - `includes`, `lastIndexOf`, `split(...)[0]`, `toLowerCase` and `parseInt`;
  - the substring lemmas used to show that a message does not contain a marker.
- `Schema`: the report schema, the parse of the tool-call arguments and the JSON of a report.
- `Errors`: thrown values, the handler's own messages, and the `catch` block's classification.
- `Source`: which field wins, the size guard and the preset display name.
- `Poller`: the readiness loop.
- `Handler`: the whole request.

Behaviours of the code worth knowing, all proved:

- **Timeouts and failures get 500, not 504.** The 504 branch ("Gateway Timeout", line 264) looks for "File processing failed or timed out". Neither the `FAILED` message (line 183) nor the timeout message (line 198) contains that text. See `Errors.TimedOutIs500`, `Errors.ProcessingFailedIs500` and `Handler.StuckProcessingIs500`.
- **Only `PROCESSING` is waited on.** Any state other than `ACTIVE`, `PROCESSING` or `FAILED` raises "Unexpected file state" at once. This includes a pending or unspecified state. See `Poller.OtherStateAtOnce`.
- **The last poll is special.** A `FAILED` (or any non-`ACTIVE`) state returned by the 150th `getFile` call is reported as the timeout, not as a processing failure. See `Poller.FailedOnLastPollTimesOut`.
- **A size that does not parse passes the guard.** `parseInt` gives `NaN`, and `NaN > limit` is false. See `Source.UnreadableSizeAccepted`.
- **Cleanup can be skipped.** Deletion depends on an identifier being captured, which happens only after a successful upload. An upload that throws is never cleaned up, and neither is a file whose name is empty. See `Handler.DeletedOnce` and `Handler.TryNeverDeletes`.

## Model

| member | source | states |
|---|---|---|
| Text.Contains | app/api/analyze/tactics/route.ts:262-271 | `includes`: some position of the text starts with the searched text |
| Text.ParseInt | app/api/analyze/tactics/route.ts:144 | `parseInt(s, 10)`: leading JavaScript whitespace skipped, an optional sign, the longest run of digits; `NaN` (`None`) without digits |
| Text.LastIndexOf | app/api/analyze/tactics/route.ts:160 | the result is -1 or a position holding the character, and no later position holds it |
| Text.BeforeFirst | app/api/analyze/tactics/route.ts:160 | `split(c)[0]` is a prefix without `c`, followed by `c` unless it is the whole text |
| Text.ToLower | app/api/analyze/tactics/route.ts:271 | same length, every character lowered |
| Text.ParseDecimal | app/api/analyze/tactics/route.ts:144 | `parseInt` reads back the decimal text of every natural number |
| Schema.ValidReport | app/api/analyze/tactics/route.ts:17-29 | `TacticalReportSchema` accepts an object with the string keys `overallSummary` and `formationAnalysis`, an array `keyTacticalMoments` of moments, and, where present, an array `playerHighlights` of highlights and an array `suggestedImprovements` of strings |
| Schema.ParseMoments | app/api/analyze/tactics/route.ts:20-23 | an array of moments parses iff every element is a valid moment, and each element yields its moment |
| Schema.ParseHighlights | app/api/analyze/tactics/route.ts:24-27 | the same for player highlights |
| Schema.ParseStrings | app/api/analyze/tactics/route.ts:28 | the same for an array of strings |
| Schema.ParseReport | app/api/analyze/tactics/route.ts:17-29 | parsing succeeds iff the value has the three required string/array keys and well-formed optional arrays; the two strings are copied, the moments are the element-by-element parse of the array, and an optional field is present iff its key is, holding the element-by-element parse of its array |
| Schema.MomentRoundTrip | app/api/analyze/tactics/route.ts:20-23 | the JSON of a moment is valid and parses back to it |
| Schema.HighlightRoundTrip | app/api/analyze/tactics/route.ts:24-27 | the JSON of a highlight is valid and parses back to it |
| Schema.ReportRoundTrip | app/api/analyze/tactics/route.ts:242-244 | every report the handler can send is accepted by the schema and parses back to itself |
| Schema.MissingSummaryRejected | app/api/analyze/tactics/route.ts:18 | an object without `overallSummary` is rejected |
| Schema.MinimalReportAccepted | app/api/analyze/tactics/route.ts:17-23 | the three required keys with one description-only moment are accepted, with the optional parts absent |
| Errors.PresetFetchFailed | app/api/analyze/tactics/route.ts:109 | the message of a refused preset fetch, naming the URL and the status text |
| Errors.MissingMetadata | app/api/analyze/tactics/route.ts:168 | the message of the missing-metadata guard |
| Errors.ProcessingFailed | app/api/analyze/tactics/route.ts:183 | the message for a `FAILED` file, naming its display name |
| Errors.UnexpectedState | app/api/analyze/tactics/route.ts:194 | the message for any other state, naming it |
| Errors.TimedOut | app/api/analyze/tactics/route.ts:198 | the message for a used-up budget, naming the budget and the last state |
| Errors.Classify | app/api/analyze/tactics/route.ts:256-284 | statuses are 404, 500, 502 or 504; 504 iff the message holds the timeout marker; 502 iff it holds the preset marker and not the timeout marker; 404 iff it holds `getFile` and `404` or `not found` (case-insensitive) and neither earlier marker; no message and no details give the unknown-error text |
| Errors.UnmarkedRaiseIs500 | app/api/analyze/tactics/route.ts:277-284 | an error with no marker in its message gets 500 with the message as details |
| Errors.ProcessingFailedUnmarked | app/api/analyze/tactics/route.ts:183 | the `FAILED` message holds no marker when the display name holds none |
| Errors.TimedOutUnmarked | app/api/analyze/tactics/route.ts:198 | the timeout message holds no marker when the state holds none |
| Errors.UnexpectedStateUnmarked | app/api/analyze/tactics/route.ts:194 | the unexpected-state message holds no marker when the state holds none |
| Errors.MissingMetadataUnmarked | app/api/analyze/tactics/route.ts:168 | the missing-metadata message holds no marker |
| Errors.KnownStatesUnmarked | app/api/analyze/tactics/route.ts:177-194 | the provider's state names hold no marker |
| Errors.PresetFetchFailedHasMarker | app/api/analyze/tactics/route.ts:109 | for every URL and status text the preset-fetch message holds the preset marker |
| Errors.PresetFetchFailedMarked | app/api/analyze/tactics/route.ts:109 | the preset-fetch message holds the preset marker and, unless the URL or status text does, not the timeout marker |
| Errors.PresetFetchFailedIs502 | app/api/analyze/tactics/route.ts:262-267 | a preset-fetch failure gets 502 with the "Failed to retrieve preset video" details |
| Errors.ProcessingFailedIs500 | app/api/analyze/tactics/route.ts:262-281 | a `FAILED` file's error gets 500, not 504 |
| Errors.TimedOutIs500 | app/api/analyze/tactics/route.ts:262-264 | the timeout error misses the 504 branch and gets 500 |
| Errors.UnexpectedStateIs500 | app/api/analyze/tactics/route.ts:277-281 | the unexpected-state error gets 500 with its message |
| Errors.MissingMetadataIs500 | app/api/analyze/tactics/route.ts:167-169 | the missing-metadata error would get 500 with its message |
| Source.SelectSource | app/api/analyze/tactics/route.ts:131-157 | no source iff neither field is truthy; the stored file iff `filename` is truthy (so it wins); the preset iff only `presetUrl` is |
| Source.TooLarge | app/api/analyze/tactics/route.ts:144-145 | the guard: the size text, `'0'` when missing, is refused when `parseInt` reads a number above 20 MiB |
| Source.TooLargeIff | app/api/analyze/tactics/route.ts:142-147 | a size given as the decimal text of `n` is refused iff `n > 20·1024·1024`; the limit itself passes |
| Source.MissingSizeAccepted | app/api/analyze/tactics/route.ts:144 | a missing size counts as 0 and passes |
| Source.UnreadableSizeAccepted | app/api/analyze/tactics/route.ts:144-145 | a size without leading digits is `NaN` and passes |
| Source.LastSegment | app/api/analyze/tactics/route.ts:160 | the text after the last '/' is a suffix without '/', preceded by '/' unless it is the whole URL |
| Source.PresetDisplayName | app/api/analyze/tactics/route.ts:160 | the display name is never empty and holds neither '/' nor '?' |
| Source.SegmentExists | app/api/analyze/tactics/route.ts:160 | every URL has a segment between its last '/' and the next '?' |
| Source.SegmentUnique | app/api/analyze/tactics/route.ts:160 | that segment is unique |
| Source.DisplayNameIsSegment | app/api/analyze/tactics/route.ts:160 | the display name is that segment, or `preset-` and the timestamp when it is empty |
| Poller.Poll | app/api/analyze/tactics/route.ts:172-199 | the wait ends ready only with an `ACTIVE` file; from an even counter it makes at most (300 − counter)/2 calls; an `ACTIVE` file is returned at once |
| Poller.AwaitActive | app/api/analyze/tactics/route.ts:172-199 | the loop's outcome and call count are those of `Poll` from 0 |
| Poller.AtMost150Polls | app/api/analyze/tactics/route.ts:172-190 | at most 150 `getFile` calls |
| Poller.FailedAtOnce | app/api/analyze/tactics/route.ts:182-184 | a `FAILED` file, from the upload or from any reply before the budget is used up, raises the processing-failed error at once, naming the display name |
| Poller.OtherStateAtOnce | app/api/analyze/tactics/route.ts:186-194 | any other state, at any point before the budget is used up, raises the unexpected-state error at once, without a further call |
| Poller.FailedMidWait | app/api/analyze/tactics/route.ts:176-194 | a `FAILED` reply to call `k < 149` after `PROCESSING` replies ends the wait after `k + 1` calls with the processing-failed error naming that reply |
| Poller.NeverReady | app/api/analyze/tactics/route.ts:176-198 | if every reply is `PROCESSING`, the wait makes (300 − counter)/2 calls and times out with state `PROCESSING` |
| Poller.AlwaysProcessingTimesOut | app/api/analyze/tactics/route.ts:176-198 | from the start that is 150 calls and the timeout error |
| Poller.LastReplyDecides | app/api/analyze/tactics/route.ts:176-198 | after 149 `PROCESSING` replies, the 150th is accepted if `ACTIVE` and otherwise reported as a timeout |
| Poller.FailedOnLastPollTimesOut | app/api/analyze/tactics/route.ts:182-198 | a `FAILED` 150th reply gives the timeout error naming `FAILED` |
| Poller.ReadyAfterTwoPauses | app/api/analyze/tactics/route.ts:176-191 | `PROCESSING`, `PROCESSING`, `ACTIVE` is ready after two calls (4 s counted) |
| Poller.TimeoutNamesBudget | app/api/analyze/tactics/route.ts:198 | the `300` written into the timeout message is the decimal text of the budget (justifies that literal; not a property of the wait) |
| Handler.Upload | app/api/analyze/tactics/route.ts:153-155 | a failed upload stops with the error and no identifier; the call log keeps only preparation calls |
| Handler.FromStorage | app/api/analyze/tactics/route.ts:136-147 | the stored-file branch never captures an identifier when it stops; it only calls the bucket and the upload |
| Handler.Transfer | app/api/analyze/tactics/route.ts:148-156 | after the size check, every stop is a thrown error without an identifier |
| Handler.FromPreset | app/api/analyze/tactics/route.ts:105-119 | the preset branch stops only by throwing, without an identifier; it only calls `fetch` and the upload |
| Handler.Acquire | app/api/analyze/tactics/route.ts:131-165 | a response returned before the wait is 400 or 413 with an error body; no identifier is captured on a stop |
| Handler.ReportStage | app/api/analyze/tactics/route.ts:234-254 | a returned response is 200 iff it carries a report, and a report comes only from a first `saveTacticalReport` call whose arguments parse to it |
| Handler.AfterUpload | app/api/analyze/tactics/route.ts:171-254 | the identifier is captured; the wait's `getFile` calls are logged; the model is called only with a ready file, and its answer is read by `ReportStage` |
| Handler.Try | app/api/analyze/tactics/route.ts:126-254 | the `try` block: a body that cannot be read throws with no calls; otherwise preparation, then `AfterUpload` on an uploaded file |
| Handler.Respond | app/api/analyze/tactics/route.ts:256-284 | a returned response stands; a thrown error is answered with `Classify`'s status and details |
| Handler.Cleanup | app/api/analyze/tactics/route.ts:286-298 | one `deleteFile` with the identifier when it is truthy, nothing otherwise |
| Handler.Handle | app/api/analyze/tactics/route.ts:122-300 | the response of `Respond` on `Try`, and `Try`'s calls followed by `Cleanup`'s |
| Handler.Analyze | app/api/analyze/tactics/route.ts:126-254 | the `try` block's outcome, identifier and calls are those of `Try` |
| Handler.PrepareStored | app/api/analyze/tactics/route.ts:136-156 | the stored-file branch computes `FromStorage` |
| Handler.PreparePreset | app/api/analyze/tactics/route.ts:157-164 | the preset branch computes `FromPreset` |
| Handler.AwaitAndReport | app/api/analyze/tactics/route.ts:171-254 | the wait and the model step compute `AfterUpload` |
| Handler.Post | app/api/analyze/tactics/route.ts:122-300 | the response and the call log are those of `Handle`, whatever `deleteFile` does; `deleteFile` is called once iff an identifier was captured |
| Handler.TryNeverDeletes | app/api/analyze/tactics/route.ts:123-163 | the `try` block never deletes; an identifier is captured exactly when an upload succeeded, and it is the uploaded file's name |
| Handler.DeletedOnce | app/api/analyze/tactics/route.ts:286-298 | `deleteFile` is called exactly once, as the last call, when a truthy identifier was captured, and never otherwise |
| Handler.GetFileCalls | app/api/analyze/tactics/route.ts:176-195 | the `getFile` calls are exactly those of the wait, at most 150 |
| Handler.GeneratesOnlyWhenActive | app/api/analyze/tactics/route.ts:197-222 | the model is only called with an `ACTIVE` file |
| Handler.MissingSourceIs400 | app/api/analyze/tactics/route.ts:131-133 | neither field gives 400 and no calls at all |
| Handler.FilenameWins | app/api/analyze/tactics/route.ts:136-157 | with `filename` given, `presetUrl` does not change anything |
| Handler.OversizeIs413 | app/api/analyze/tactics/route.ts:142-147 | too large a stored file gives 413 after one metadata call, and nothing is uploaded or deleted |
| Handler.ExactLimitProceeds | app/api/analyze/tactics/route.ts:145-149 | a file of exactly 20 MiB goes on to the download |
| Handler.ReportStageIff | app/api/analyze/tactics/route.ts:238-249 | a report is returned iff the first function call is `saveTacticalReport` with arguments the schema accepts, and it is the parse of those arguments |
| Handler.ReportRejected | app/api/analyze/tactics/route.ts:245-248 | a `saveTacticalReport` call whose arguments the schema rejects gives 500 with "Failed to generate report in the correct format." |
| Handler.NoReportCall | app/api/analyze/tactics/route.ts:250-253 | without a first `saveTacticalReport` call, a throwing `text()` is passed to the `catch` block, and otherwise the answer is 500 "Failed to extract structured report." with the model's text |
| Handler.OkOnlyWithReport | app/api/analyze/tactics/route.ts:238-244 | status 200 iff a report is sent; that report comes from a valid first tool call after the model was called |
| Handler.StuckProcessingIs500 | app/api/analyze/tactics/route.ts:176-198 | a file stuck in `PROCESSING` is polled 150 times and answered with 500 and the timeout message; the calls are the preparation, the 150 polls and the cleanup |
| Handler.FailedFileIs500 | app/api/analyze/tactics/route.ts:182-184 | a `FAILED` file gives 500 naming it, and the model is not called |
| Handler.MissingUploadIs404 | app/api/analyze/tactics/route.ts:268-273 | a `getFile` error mentioning 404 gives 404 naming the captured identifier |
| Handler.PresetRefusedIs502 | app/api/analyze/tactics/route.ts:108-109 | a preset URL answering with an error status gives 502 after the one fetch, with nothing uploaded or deleted |
| Handler.ReportReturned | app/api/analyze/tactics/route.ts:234-244 | an `ACTIVE` file and a valid tool call give the report, one model call and then the deletion |
| Handler.PresetEndToEnd | app/api/analyze/tactics/route.ts:157-244 | preset fetched and uploaded, `PROCESSING` twice then `ACTIVE`, a valid tool call: the report, and exactly fetch, upload, two polls, the model call and the deletion |

## Left out

- The bytes of the video are not modelled: what is downloaded or fetched, and what is uploaded. Only the calls and their metadata are.
- The tool declaration, system instruction, prompt and model name (route.ts lines 31-96 and 203-232) are not modelled; they only shape the model call, which is an oracle.
- `utils/storage.ts`, the storage routes under `app/api/storage/` and the UI are not part of this model.
- Console logging, and the 2-second pause between polls, are not modelled. The pause is represented only by the counter step of 2.
- `Date.now()` is the parameter `now`.
- The schema library's list of validation issues (the `details` of the schema-error response) is not modelled. Its stripping of unknown keys is implicit: a parsed report holds only the declared keys.
- JSON numbers are integers. No schema field is a number.
- Text.ToLower: lowers only the letters A to Z, not the rest of Unicode.
- The check at lines 167-169 cannot fail in the model: an upload either throws or returns a file record. An upload result without its `file` is not modelled.
- A thrown `null` or `undefined` is not modelled; reading `message` from it would throw inside the `catch` block. A `message` property that is not a string is not modelled either.
- A failure to read the fetched body (`arrayBuffer`) is folded into the `fetch` reply's error.
- `fileMeta.size` is taken as text; a numeric size is the same as the text of its number.
- The `404` test on a failed deletion only decides what is logged, so only the fact that the failure is swallowed is modelled.
