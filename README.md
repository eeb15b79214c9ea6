# front-axis-bot, modelled in Dafny

front-axis-bot is a webhook for the Front customer-support platform. It receives a conversation transcript. It checks the request's HMAC signature and validates the body. It then answers 202 and runs a background task. The task asks a language model for three sub-scores:

- RA: resolution accuracy;
- IE: interaction effort;
- HS: handoff smoothness.

The task averages them into the AXIS score, rounded to one decimal, and maps that to a tier (Poor, Fair or Excellent). It then writes everything back to the conversation through five Front API calls. Every call goes through one sender. On HTTP 429 the sender waits `3000 × attempt` ms and retries.

The model has one module per concern:

| file | module | models |
|---|---|---|
| `axis.dfy` | `Axis` | `calculateAxisScore` on integer tenths, and how a score prints in a template literal |
| `llm.dfy` | `Llm` | the shape of the model's answer: three dimensions, each a score in [1, 5] and an explanation |
| `json.dfy` | `Json` | parsed JSON values, and JavaScript property access on them |
| `effects.dfy` | `Effects` | the outside world as a class `Runtime`: scripted HTTP replies, the language model as an oracle, and a trace of every fetch, sleep, prompt and scheduled task |
| `schema.dfy` | `Schema` | `requestSchema`: the `cnv_` prefix and a non-empty message, with the issues reported on failure |
| `front.dfy` | `FrontClient` | the class `Front`: the headers fixed at construction, the `sendRequest` retry loop, and the requests made by the four operations |
| `pipeline.dfy` | `Pipeline` | the tier, the comment text, and `processConversation` |
| `webhook.dfy` | `Webhook` | `requestIntegrityCheck` and `POST` |

Design choices:

- **Scores are integer tenths.** A sub-score `t` in 10..50 stands for `t/10`. The axis score is `(ra + ie + hs + 1) / 3` in integer division. Its contract is `toFixed(1)`'s rounding rule, stated on reals: `S/3 − 1/2 < axis ≤ S/3 + 1/2`. `S/3` never ends in exactly one half, so no tie can arise.
- **The API is a script.** `Runtime.replies` is the fixed list of answers the Front API gives, in order. A fetch made after the list is used up yields the model-only error `NoReply`. This is what makes the unbounded 429 retry terminate: `decreases |rt.replies|`.
- **Methods are proved against functions.** The imperative code becomes methods on the runtime: `sendRequest`'s loop, `processConversation`'s sequence of awaits, and `POST`. Each method is proved equal to a specification function:
  - `SendOutcome` for `sendRequest`;
  - `Process` and its step functions for `processConversation`;
  - `Handle` for `POST`.

  Each function gives the outcome, the events appended to the trace, and the number of replies consumed. The properties are lemmas about those functions.
- **`processConversation` is split at each await.** The task's method `Pipeline.ProcessConversation` hands off to a chain of methods (`Update`, `ScoreTag`, `RangeTag`, `Attach`). `Update`, `ScoreTag` and `RangeTag` each make one awaited call and then continue the task; `Attach` makes the last two calls, attaching the tags and then adding the comment. Each mirrors the step function of the same stage, so each method's proof covers one stage instead of all five calls at once.
- **Every awaited call can fail the task.** A rejected promise ends `processConversation` with that call's error, and no later call is made (`Pipeline.ProcessCallOrder` states this for each of the five calls). Errors are an `Error` value rather than an exception.

Where the code does less than a webhook receiver is usually expected to do, the model follows the code. Front documents its webhook signatures on the page the source links at api/axis.ts:63.

- **What is signed.** A signature check is meant to cover the request exactly as it was received. The code instead signs `JSON.stringify` of the already-parsed body (api/axis.ts:97 and api/axis.ts:74), so two bodies that parse to the same value share a signature. `Webhook.BaseString` signs the re-serialised value.
- **How the signature is compared.** A signature comparison is meant to take the same time whatever the input. The code uses `!==` (api/axis.ts:82). The model claims nothing about timing.
- **Malformed JSON.** A request that cannot be verified is meant to be answered 400. In the code, `request.json()` runs before the check. A body that is not JSON throws (`Webhook.MalformedJson`) instead of getting a 400.
- **Partial failure.** A failing call abandons the rest of the task, and the calls already made are not undone. For example, the custom fields can be updated with no tag attached (`Pipeline.ScoreTagRejectedStops`).

## Model

| member | source | states |
|---|---|---|
| Axis.CalculateAxisScore | lib/axis.ts:9-11 | the result is the mean of the three scores rounded to the nearest tenth: it lies within half a tenth of `(ra+ie+hs)/3` |
| Axis.RoundedMeanIsUnique | lib/axis.ts:10 | any whole number of tenths within half a tenth of the mean is the computed score, so the score is the only correct rounding |
| Axis.AxisScoreInRange | lib/axis.ts:2-10 | for sub-scores in [1, 5] the score is in [1, 5], inside the 0–5 the doc comment promises |
| Axis.AxisScoreSymmetric | lib/axis.ts:10 | permuting the three sub-scores leaves the score unchanged |
| Axis.AxisScoreOfEqualScores | lib/axis.ts:10 | three equal one-decimal sub-scores give that value back |
| Axis.AxisScoreMonotone | lib/axis.ts:10 | raising any single sub-score never lowers the score |
| Axis.FormatTenths | api/axis.ts:35 | a score prints as one digit, or as a digit, a point and a non-zero digit: `4`, `3.8`, never `4.0` |
| Axis.FormatTenthsRoundTrip | api/axis.ts:35 | reading the printed score back gives the score |
| Axis.FormatTenthsInjective | api/axis.ts:35 | different scores print differently, so different scores give different tag names |
| Json.Find | api/axis.ts:109-110 | a key's value is found iff some member has that key, and the value found belongs to such a member |
| Json.FindIsLastMatch | api/axis.ts:109-110 | the value found is that of the last member with the key, as `JSON.parse` keeps the last of duplicated keys: no later member has that key |
| Json.DuplicateKeyLastWins | api/axis.ts:109-110 | of `[(k, null), (k, true)]` the key `k` reads `true` |
| Json.Get | api/axis.ts:109-110 | for the keys the program reads (`conversation_id`, `message`, `id`, none of them built in or inherited), property access fails exactly on `null`; on an object it is the member lookup; on any other value it is `undefined` |
| Effects.Runtime.Fetch | lib/front.ts:111-115 | a fetch is recorded in the trace and answered with the next scripted reply, which it consumes |
| Effects.Runtime.Sleep | lib/front.ts:120 | a wait is recorded with its duration; nothing else changes |
| Effects.Runtime.Generate | api/axis.ts:12-14 | the completion is the oracle's answer for the prompt, and the prompt is recorded |
| Effects.Runtime.Schedule | api/axis.ts:116 | handing a task to the runtime records it and changes nothing else |
| Schema.ConversationIdIssues | lib/schema.ts:5 | no issue iff the identifier is a string starting with `cnv_` |
| Schema.MessageIssues | lib/schema.ts:6 | no issue iff the message is a string of at least one character |
| Schema.ParseRequest | lib/schema.ts:4-7 | success iff both values are strings of the required shape; on success it returns the inputs unchanged; on failure it reports at least one issue |
| Schema.IsValidRequest | lib/schema.ts:5-6 | the shape on plain strings: the identifier starts with `cnv_` and the message has at least one character (no contract; `Schema.ParseRequest` states that parsing succeeds exactly on strings meeting it) |
| Schema.EmptyMessageRejected | lib/schema.ts:6 | an empty message is rejected, with a too-small issue, whatever the identifier |
| Schema.UnprefixedIdRejected | lib/schema.ts:5 | an identifier without the `cnv_` prefix is rejected, and its issue comes first, whatever the message |
| Schema.SampleIdsRejected | lib/schema.ts:5 | `cnv` and `abc_1` are rejected |
| Schema.BarePrefixAccepted | lib/schema.ts:5-6 | `cnv_` with a non-empty message is accepted and returned unchanged |
| FrontClient.SendOutcome | lib/front.ts:104-134 | one call never consumes more replies than are scripted, and consumes at least one if any is left |
| FrontClient.LeadingRateLimits | lib/front.ts:117-121 | counts exactly the run of 429 replies at the head of the script |
| FrontClient.SendOutcomeClosedForm | lib/front.ts:110-133 | a call is `k` rate-limited attempts, each a fetch and a wait, then one final fetch decided by the first non-429 reply, with `k` the leading 429s |
| FrontClient.RateLimitedAttemptsLogs | lib/front.ts:118-121 | `k` rate-limited attempts from attempt `n` fetch the same request `k` times and wait `3000·n, 3000·(n+1), …` ms |
| FrontClient.RetriesThenSuccess | lib/front.ts:110-121 | `k` 429s then a 2xx: success with the body, `k+1` fetches of the same request, waits of 3000, 6000, …, 3000·k ms |
| FrontClient.TwoRateLimitsThenOk | lib/front.ts:110-121 | 429, 429, 200: three fetches, waits of 3000 and 6000 ms, then the body |
| FrontClient.OtherErrorStopsAtOnce | lib/front.ts:117-124 | any other non-ok status: one fetch, no wait, and an error carrying `Failed to update conversation: <status text>` |
| FrontClient.OkRepliesDecideResult | lib/front.ts:127-133 | 204 gives the `{success: true}` sentinel without reading the body; another ok status gives the parsed body, or fails when it is not JSON |
| FrontClient.SendOutcomeFetchesRequest | lib/front.ts:111-121 | every fetch of one call, the retries included, sends the same request |
| FrontClient.TagIdsJson | lib/front.ts:92 | one JSON item per tag id, in order; an undefined id serialises as `null` |
| FrontClient.TagIdJson | lib/front.ts:92 | an `undefined` tag id is written as `null`, any other id as itself (no contract; `FrontClient.TagIdsJson` states it item by item) |
| FrontClient.TenthsJson | lib/front.ts:47-50 | a score in tenths as the JSON number `t/10` (no contract; `FrontClient.TenthsRoundTrip` states it reads back unchanged) |
| FrontClient.TagIdOf | lib/front.ts:80 | reading `id` fails exactly when the response is `null`; on an object it is the `id` member |
| FrontClient.Unit | lib/front.ts:41-56 | an operation fails exactly when its request failed, with the same error |
| FrontClient.TenthsRoundTrip | lib/front.ts:47-50 | a score in tenths is sent as the number `t/10` and is recovered from it |
| FrontClient.UpdatePayloadRoundTrip | lib/front.ts:45-52 | the four custom fields "AXIS Score", "AXIS: RA", "AXIS: IE", "AXIS: HS" carry the axis and the three sub-scores unchanged |
| FrontClient.TagPayloadRoundTrip | lib/front.ts:78 | the create-tag body carries the name unchanged |
| FrontClient.CommentPayloadRoundTrip | lib/front.ts:67 | the comment body carries the text unchanged |
| FrontClient.TagIdsPayloadKeepsOrder | lib/front.ts:88-93 | the `tag_ids` array holds the given ids in the given order |
| FrontClient.AuthHeaders | lib/front.ts:17-20 | the header object: `Authorization: Bearer <token>`, then `Content-Type: application/json` (no contract; `Front.constructor` and `Pipeline.ProcessFetchesFollowCalls` state what it fixes) |
| FrontClient.IsOk | lib/front.ts:117 | `res.ok`: a status from 200 to 299 (no contract; `FrontClient.OtherErrorStopsAtOnce` and `FrontClient.OkRepliesDecideResult` state the two sides) |
| FrontClient.Backoff | lib/front.ts:120 | the wait of 3000 ms times the attempt number (no contract; `FrontClient.RetriesThenSuccess` and `FrontClient.TwoRateLimitsThenOk` state the waits 3000, 6000, …) |
| FrontClient.FailureMessage | lib/front.ts:124 | the error text `Failed to update conversation: <statusText>` (no contract; `FrontClient.OtherErrorStopsAtOnce` states it as a literal) |
| FrontClient.SuccessSentinel | lib/front.ts:127-131 | the `{success: true}` result of a 204 (a constant; `FrontClient.OkRepliesDecideResult` states it as a literal) |
| FrontClient.UpdatePayload | lib/front.ts:45-52 | the body `{custom_fields: {"AXIS Score", "AXIS: RA", "AXIS: IE", "AXIS: HS"}}` (no contract; `FrontClient.UpdatePayloadRoundTrip` reads the four fields back) |
| FrontClient.UpdateConversationRequest | lib/front.ts:42-53 | a PATCH of `UpdatePayload` to `/conversations/<id>` (no contract; `FrontClient.Front.UpdateConversation` states it is what the operation sends) |
| FrontClient.CommentPayload | lib/front.ts:67 | the body `{body: <comment>}` (no contract; `FrontClient.CommentPayloadRoundTrip` reads it back) |
| FrontClient.AddCommentRequest | lib/front.ts:64-68 | a POST of `CommentPayload` to `/conversations/<id>/comments` (no contract; `FrontClient.Front.AddComment` states it is what the operation sends) |
| FrontClient.TagPayload | lib/front.ts:78 | the body `{name: <name>}` (no contract; `FrontClient.TagPayloadRoundTrip` reads it back) |
| FrontClient.CreateTagRequest | lib/front.ts:78 | a POST of `TagPayload` to `/tags` (no contract; `FrontClient.Front.CreateTag` states it is what the operation sends) |
| FrontClient.TagIdsPayload | lib/front.ts:92 | the body `{tag_ids: [...]}` (no contract; `FrontClient.TagIdsPayloadKeepsOrder` states the ids keep their order) |
| FrontClient.AddTagsRequest | lib/front.ts:89-93 | a POST of `TagIdsPayload` to `/conversations/<id>/tags` (no contract; `FrontClient.Front.AddTagsToConversation` states it is what the operation sends) |
| FrontClient.FinalOutcome | lib/front.ts:117-133 | the result of a non-429 reply, used by `SendOutcome` for every attempt that is not rate limited: a rejected fetch, a non-ok status with the status text, the 204 sentinel, the parsed body or a body that is not JSON (no contract; `FrontClient.OtherErrorStopsAtOnce` and `FrontClient.OkRepliesDecideResult` state each case) |
| FrontClient.RateLimitedAttempts | lib/front.ts:117-121 | `count` rate-limited attempts give `2·count` events, a fetch and a wait each; `FrontClient.RateLimitedAttemptsLogs` states the waits |
| FrontClient.Front.constructor | lib/front.ts:15-21 | the headers are fixed at construction to `Bearer <token>` and `application/json` |
| FrontClient.Front.SendRequest | lib/front.ts:104-134 | the loop returns what `SendOutcome` specifies, appends its events to the trace and consumes its replies; every fetch goes to the API base plus the path, with the client's headers |
| FrontClient.Front.UpdateConversation | lib/front.ts:41-56 | one call: PATCH to `/conversations/<id>` with the custom-field payload |
| FrontClient.Front.AddComment | lib/front.ts:63-69 | one call: POST `{body}` to `/conversations/<id>/comments` |
| FrontClient.Front.CreateTag | lib/front.ts:77-81 | one call: POST `{name}` to `/tags`; on success the result is the response's `id` |
| FrontClient.Front.AddTagsToConversation | lib/front.ts:88-94 | one call: POST `{tag_ids}` to `/conversations/<id>/tags` |
| Pipeline.TierName | api/axis.ts:43 | the three names `Poor`, `Fair`, `Excellent` (no contract; `Pipeline.TierNamesDistinct` states they differ) |
| Pipeline.AxisOf | api/axis.ts:29 | the axis of the completion's three sub-scores, by `calculateAxisScore` (no contract; `Axis.CalculateAxisScore` states the rounding, `Axis.AxisScoreInRange` the range, and `Pipeline.ExampleTagNames` a worked value, 3.8) |
| Pipeline.ScoreTagName | api/axis.ts:35 | `AXIS: <axis>` with the axis printed as a JS number (no contract; `Pipeline.ExampleTagNames` gives `AXIS: 3.8`, `Axis.FormatTenthsInjective` makes different scores give different names) |
| Pipeline.RangeTagName | api/axis.ts:43-44 | `AXIS Range: <tier>` (no contract; `Pipeline.ExampleTagNames` gives `AXIS Range: Fair`, `Pipeline.TagRequestsDiffer` keeps it apart from the score tag) |
| Pipeline.Comment | api/axis.ts:50-58 | the comment for an assessment: `CommentText` of its axis, tier and sub-scores (no contract; `Pipeline.CommentHeadingLine` and `Pipeline.CommentSections` state its layout) |
| Pipeline.UpdateRequest | api/axis.ts:32 | the `updateConversation` request with the axis and the three raw sub-scores (no contract; `Pipeline.UpdateStepShape` makes it the first call, `FrontClient.UpdatePayloadRoundTrip` states its fields) |
| Pipeline.Heading | api/axis.ts:50 | `AXIS score: **<axis>** - <tier>` (no contract; `Pipeline.HeadingIsOneLine` and `Pipeline.CommentHeadingLine` state its place) |
| Pipeline.Section | api/axis.ts:51-58 | one dimension: `**<name>: <score>**`, a line break, then `  - _<explanation>_` (no contract; `Pipeline.SectionOpening` states how it opens) |
| Pipeline.CommentText | api/axis.ts:50-58 | the template literal with its line breaks and indentation (no contract; `Pipeline.CommentHeadingLine` and `Pipeline.CommentSections` state its layout) |
| Pipeline.TierOf | api/axis.ts:43 | Poor iff the score is below 3, Fair iff it is at least 3 and below 4, Excellent iff it is at least 4 |
| Pipeline.Rank | api/axis.ts:43 | the tiers are ranked 0 to 2, Poor lowest, the order in which `TierMonotone` is stated |
| Pipeline.TierMonotone | api/axis.ts:43 | a higher score never gets a lower tier |
| Pipeline.TierNamesDistinct | api/axis.ts:43 | the three tier names are different, so the range tag names the tier |
| Pipeline.TierBoundaries | api/axis.ts:43 | 2.9 is Poor, 3 and 3.9 are Fair, 4 is Excellent; equal sub-scores of 2, 3 and 4 land in Poor, Fair and Excellent |
| Pipeline.HeadingIsOneLine | api/axis.ts:50 | the heading `AXIS score: **<axis>** - <tier>` holds no line break |
| Pipeline.SectionOpening | api/axis.ts:51-58 | each dimension's section opens with `**<name>: ` |
| Pipeline.CommentHeadingLine | api/axis.ts:50 | the report opens with its heading, followed by a line break |
| Pipeline.CommentSections | api/axis.ts:50-58 | after the heading the report holds the RA, IE and HS sections in that order at fixed offsets, each with its score and explanation, and nothing else |
| Pipeline.UpdateStep | api/axis.ts:32 | the update stage never consumes more replies than are scripted |
| Pipeline.ScoreTagStep | api/axis.ts:35 | the score-tag stage never consumes more replies than are scripted |
| Pipeline.RangeTagStep | api/axis.ts:43-44 | the range-tag stage never consumes more replies than are scripted |
| Pipeline.AttachStep | api/axis.ts:47 | the attach stage never consumes more replies than are scripted |
| Pipeline.CommentStep | api/axis.ts:50-58 | the comment stage never consumes more replies than are scripted |
| Pipeline.Process | api/axis.ts:10-59 | the whole task never consumes more replies than are scripted |
| Pipeline.NullCompletionMakesNoCalls | api/axis.ts:16-19 | a null completion ends the task with no Front call, no fetch and no reply consumed |
| Pipeline.CommentStepShape | api/axis.ts:50-58 | the last stage is exactly the add-comment call, its outcome is that call's, and its fetches repeat that call with the client's headers |
| Pipeline.AttachStepFollows | api/axis.ts:47-58 | from the attach stage on, the fetches with retries merged are exactly the calls, each with the client's headers |
| Pipeline.RangeTagStepFollows | api/axis.ts:43-58 | the same from the range-tag stage on |
| Pipeline.ScoreTagStepFollows | api/axis.ts:35-58 | the same from the score-tag stage on (the two tag calls differ, so their retries do not merge) |
| Pipeline.UpdateStepFollows | api/axis.ts:32-58 | the same from the update stage on |
| Pipeline.CreatedTag | lib/front.ts:78-80 | what `createTag` hands the task: its call's error, or the `id` of the response, or the error of reading it from `null` (no contract; the shape lemmas below use it) |
| Pipeline.AttachStepShape | api/axis.ts:47-58 | attach, then comment; a failing attach is the last call and its error is the outcome; otherwise the comment call decides the outcome |
| Pipeline.RangeTagStepShape | api/axis.ts:43-58 | range tag, then attach of the given score tag id and the `id` of the range tag response, then comment; each failing call is the last call and its error is the outcome |
| Pipeline.TagRequestsDiffer | api/axis.ts:35-44 | the two create-tag calls are different requests |
| Pipeline.ScoreTagStepShape | api/axis.ts:35-58 | score tag, range tag, attach of the `id`s of the two tag responses, comment; each failing call is the last call and its error is the outcome |
| Pipeline.UpdateStepShape | api/axis.ts:32-58 | update, score tag, range tag, attach of the two responses' `id`s, comment; each failing call is the last call and its error is the outcome |
| Pipeline.ProcessCallOrder | api/axis.ts:29-58 | with an assessment: at most five calls, in the order update (axis and raw sub-scores), `AXIS: <axis>`, `AXIS Range: <tier>`, attach the `id`s the two tag responses carry (score tag first), comment; each failing call, or a `null` tag response, is the last call made and its error is the outcome; success only after all five |
| Pipeline.ScoreTagRejectedStops | api/axis.ts:32-35 | an accepted update followed by a 500 on the score tag ends the task after those two calls with the `Failed to update conversation: Server Error` error |
| Pipeline.ProcessFetchesFollowCalls | api/axis.ts:24-58 | with retries merged, the fetches are exactly the calls in order, and every fetch carries `Bearer <key>` and the JSON content type |
| Pipeline.AcceptedCall | lib/front.ts:110-133 | a call whose first reply is accepted with a body succeeds with that body after one reply |
| Pipeline.AttachAccepted | api/axis.ts:47-58 | two accepted replies: attach and comment succeed after two calls and two replies |
| Pipeline.RangeTagAccepted | api/axis.ts:43-58 | three accepted replies: success after three calls, attaching the given score tag id and the range tag response's `id` |
| Pipeline.ScoreTagAccepted | api/axis.ts:35-58 | four accepted replies: success after four calls, attaching the `id`s of the two tag responses |
| Pipeline.UpdateAccepted | api/axis.ts:32-58 | five accepted replies from the update stage on: success after five calls, attaching the `id`s of the two tag responses |
| Pipeline.ProcessAcceptedCompletes | api/axis.ts:32-58 | five accepted replies: success after five calls and five replies, attaching the ids of the two tag responses, score tag first |
| Pipeline.ExampleTagNames | api/axis.ts:29-44 | scores 4, 4.5, 3 give 3.8 and tags `AXIS: 3.8` and `AXIS Range: Fair` |
| Pipeline.ExampleScenario | api/axis.ts:10-59 | scores 4, 5, 3 give tags `AXIS: 4` and `AXIS Range: Excellent`, five calls, and a report opening `AXIS score: **4** - Excellent` |
| Pipeline.ProcessConversation | api/axis.ts:10-59 | the task returns the outcome `Process` specifies, appends its events to the trace and consumes its replies |
| Pipeline.Update | api/axis.ts:29-32 | the update call and the rest of the task, as `UpdateStep` specifies |
| Pipeline.ScoreTag | api/axis.ts:35 | the score-tag call and the rest of the task, as `ScoreTagStep` specifies |
| Pipeline.RangeTag | api/axis.ts:43-44 | the range-tag call and the rest of the task, as `RangeTagStep` specifies |
| Pipeline.Attach | api/axis.ts:47-58 | the attach and comment calls, as `AttachStep` specifies |
| Webhook.Handle | api/axis.ts:95-122 | POST's decision: the handler answers only 400 or 202, schedules at most one task, and schedules one exactly when it answers 202 |
| Webhook.BaseString | api/axis.ts:72-75 | the signed text is the timestamp, a colon, then the serialised body |
| Webhook.Present | api/axis.ts:67 | `headers.get(name)` is truthy: the header is there and not empty (no contract; `Webhook.IntegrityCheckExactly` and `Webhook.MissingHeaderRejected` state the check in its terms) |
| Webhook.Signature | api/axis.ts:77-80 | the base64 HMAC-SHA256 digest of the signed text under the app secret (no contract; `Webhook.IntegrityCheckExactly` states the comparison against it) |
| Webhook.RequestIntegrityCheck | api/axis.ts:65-88 | it passes only with both headers present and non-empty and the signature header equal to the digest |
| Webhook.IntegrityCheckExactly | api/axis.ts:65-88 | it passes iff both headers are non-empty and HMAC-SHA256-base64 of `<timestamp>:<JSON.stringify(body)>` equals the signature header |
| Webhook.MissingHeaderRejected | api/axis.ts:67-70 | a missing or empty timestamp or signature header fails the check |
| Webhook.SignedRequestAccepted | api/axis.ts:72-87 | a request signed with the secret passes, whatever its other headers, for any non-empty timestamp (an empty one is rejected as missing, api/axis.ts:67-70) |
| Webhook.ForgedSignatureRejected | api/axis.ts:82-85 | any signature other than the digest fails |
| Webhook.ExampleSignature | api/axis.ts:72-85 | with timestamp `1700000000` and body `{"a":1}`, exactly the digest of `1700000000:{"a":1}` passes |
| Webhook.ReplacedBody | api/axis.ts:72-85 | a signature for one body passes for another exactly when their digests coincide |
| Webhook.UnsignedRequestRejected | api/axis.ts:101-105 | a failed check answers 400 and schedules nothing |
| Webhook.AcceptedExactly | api/axis.ts:108-121 | 202 iff the check passes and the body is an object with a `cnv_` identifier and a non-empty message; the task then carries those two strings unchanged |
| Webhook.InvalidBodyThrows | api/axis.ts:108-111 | a signed object body of the wrong shape throws the schema's issues and schedules nothing |
| Webhook.NonObjectBodyThrows | api/axis.ts:108-111 | a signed body that is neither an object nor `null` reads `undefined` for both keys and throws the schema's issues, at least one, and schedules nothing |
| Webhook.ExampleAccepted | api/axis.ts:95-122 | a signed `{"conversation_id": "cnv_123", "message": "Thanks!"}` is answered 202 with the task for that message and conversation |
| Webhook.Post | api/axis.ts:95-122 | the handler returns the outcome `Handle` specifies and records the scheduled task; the scripted replies are untouched |

## Left out

- The language-model call (lib/llm.ts:59-75): the Gemini request, the prompt text and the schema given to the model. The model is the oracle `Runtime.llm`, keeping two facts: scores lie in [1, 5] (lib/llm.ts:24), and the answer is null on failure (lib/llm.ts:70-73).
- Scores with more than one decimal place: sub-scores are tenths, because floating point and `toFixed` are not modelled. The model covers exactly the one-decimal sub-scores.
- HMAC-SHA256, base64 and the `JSON.stringify` of the signed text are function parameters (`Webhook.Primitives`), not implementations. The UTF-8 buffer concatenation that builds the signed text is taken to give back the same string.
- The outgoing Front bodies (lib/front.ts:45, 67, 78, 92) are recorded as the `Json` value handed to `JSON.stringify`; their serialisation is not modelled.
- Json.Get: built-in and inherited properties (`length`, the `Object.prototype` names) are not modelled; no key the program reads is one.
- Webhook.SignedRequestAccepted: assumes the digest is not an empty string. A base64 SHA-256 digest is 44 characters, but HMAC is a parameter here.
- Webhook.ReplacedBody: assumes the digest is not empty, for the same reason.
- Webhook.ExampleSignature: assumes the signature header is not empty, for the same reason.
- Webhook.ExampleAccepted: assumes the digest is not empty, for the same reason.
- lib/env.ts is not part of this model: the API key and the app secret are parameters.
- Header lookup ignores case in `Headers.get`. The model's header map is keyed by lower-case names.
- `fetchConversation` (lib/front.ts:28-33) is not modelled: nothing calls it.
- Real waiting, the network and `waitUntil`:
  - a wait is a `Slept(ms)` event;
  - a fetch is answered from the script;
  - scheduling is a `Scheduled(task)` event.

  In the code, `processConversation` starts running (its model call begins) before `POST` answers. The model records only the hand-over.
- FrontClient.Front.SendRequest: terminates only with respect to the scripted replies. The real 429 loop has no bound, and `NoReply` exists only in the model.
- The find-or-create behaviour of the tags endpoint is the server's. The model records the requests and reads the `id` it is given.
- Logging (`console.log`, `console.error`) is not modelled.
- Errors are not caught in the code: a failed task is just a rejected background promise. `Pipeline.ProcessConversation` returns the error as a value.
