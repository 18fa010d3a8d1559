# Renovate feedback backend: a Dafny model of its decision logic

The backend takes a Renovate configuration document (JSON text). It checks the document against the
Renovate JSON schema and asks an LLM for structured feedback: a summary, a list of issues and an
improved document. This project models the decisions around that remote call and proves them:

- **Request gate** (`FeedbackController.getFeedback`), module `FeedbackController`. An invalid
  document is rejected with BAD_REQUEST and the reason `"Invalid Renovate configuration: "` followed
  by the validator's message. A valid document goes unchanged to the orchestrator.
- **Validation result** (`RenovateSchemaValidationService.validate` and `ValidationResult`), module
  `RenovateSchemaValidationService`. The three outcomes are: no schema messages, some messages, and
  an exception. The error list is formatted into one trimmed message by a loop, as in the source.
  `FailureFromErrors` is that loop. It is proved equal to the function `FailureReport`, which the
  pure code uses.
- **Feedback orchestrator** (`RenovateFeedbackService`), module `RenovateFeedbackService`. It covers:
  - the initial token budget and the clamped retry budget;
  - the single retry when a response is incomplete for a reason other than the content filter;
  - the classification of the final response (`toDto`): provider error, then the first structured
    output, then refusal, then empty;
  - the catch-all fallback for any exception;
  - the prompt builder.

The remote call is a scripted oracle. `Script(first, retry)` gives the outcome of the first call and,
if a retry is made, of the retry. Each outcome is `Ok(Response)` or `Fail(message)`, an exception.
`GetFeedback` returns a `Run`: the `FeedbackResponse` and the list of `Call(prompt, maxOutputTokens)`
actually made. So call counts, budgets and prompts appear in contracts. The source's reactive
pipeline (`Mono`, `flatMap`, `onErrorResume`) is sequential in effect and is modelled as plain
functions. An exception becomes a `Result` failure or a `Fail` outcome, and it is collapsed into the
fallback value in one place (`Resolve`).

The response shape follows the SDK:
- `Response(status, incompleteReason, error, output)`;
- `Item(message: Option<seq<Content>>)`;
- `Content(outputText, refusal)`.

A structured output text is either `Parsed(FeedbackResponse)` or `Malformed(reason)`. The SDK
deserialises the text when `outputText()` is read. If the first output text does not deserialise,
reading it throws inside `toDto`, and that exception reaches the catch-all. The model keeps this
path. An unreadable error message (`ApiError(None)`) leaves the error summary without its
`": " + message` tail, as the source's inner try/catch does.

## Model

| member | source | states |
|---|---|---|
| `RenovateFeedbackService.InitialTokens` | backend/src/main/java/com/oglimmer/start_renovate/service/RenovateFeedbackService.java:32 | the first budget is at least 1200 and at least the configured value, and is one of the two (their maximum) |
| `RenovateFeedbackService.RetryTokens` | backend/src/main/java/com/oglimmer/start_renovate/service/RenovateFeedbackService.java:43 | the retry budget always lies in [4096, 8192]; it is twice the initial budget when that fits, 4096 below and 8192 above; for a positive initial budget it is larger iff the initial budget is below 8192, and smaller when the initial budget exceeds 8192 |
| `RenovateFeedbackService.DefaultBudgets` | backend/src/main/java/com/oglimmer/start_renovate/config/OpenAIProperties.java:16 | with the default configured value 800 the budgets are 1200 and 4096 |
| `RenovateFeedbackService.AbsentReasonRetries` | backend/src/main/java/com/oglimmer/start_renovate/service/RenovateFeedbackService.java:37-42 | an INCOMPLETE response without a reason is retried, because the reason reads as "unknown" |
| `RenovateFeedbackService.ContentFilterIsNotRetried` | backend/src/main/java/com/oglimmer/start_renovate/service/RenovateFeedbackService.java:40-42 | the reason "content_filter" matches "CONTENT_FILTER" case-insensitively, so such a response is never retried |
| `RenovateFeedbackService.TruncationIsRetried` | backend/src/main/java/com/oglimmer/start_renovate/service/RenovateFeedbackService.java:39-49 | an INCOMPLETE response with reason "max_output_tokens" is retried |
| `RenovateFeedbackService.MessageContents` | backend/src/main/java/com/oglimmer/start_renovate/service/RenovateFeedbackService.java:118-121 | the scanned content parts are exactly the parts of the items that have a message; items without one contribute nothing |
| `RenovateFeedbackService.MessageContentsOne` | backend/src/main/java/com/oglimmer/start_renovate/service/RenovateFeedbackService.java:119-121 | one item contributes exactly its message's content parts, in their order, and nothing when it has no message; with the append lemma this fixes the whole scan order |
| `RenovateFeedbackService.MessageContentsAppend` | backend/src/main/java/com/oglimmer/start_renovate/service/RenovateFeedbackService.java:118-121 | scanning two runs of items one after the other scans their content parts one after the other (the order is items first, then parts) |
| `RenovateFeedbackService.FirstText` | backend/src/main/java/com/oglimmer/start_renovate/service/RenovateFeedbackService.java:117-124 | the result is absent iff no part has an output text; otherwise it is the output text of the first part that has one, and every earlier part has none |
| `RenovateFeedbackService.FirstTextAppend` | backend/src/main/java/com/oglimmer/start_renovate/service/RenovateFeedbackService.java:117-124 | once a prefix holds an output text, appending parts does not change the first one |
| `RenovateFeedbackService.AnyRefusal` | backend/src/main/java/com/oglimmer/start_renovate/service/RenovateFeedbackService.java:131-136 | true iff some scanned content part carries a refusal |
| `RenovateFeedbackService.ToDto` | backend/src/main/java/com/oglimmer/start_renovate/service/RenovateFeedbackService.java:94-172 | precedence: an error gives "OpenAI returned an error" (plus ": " and the message when readable); else the first output text, returned verbatim, or the exception its malformed text raises; else, when no part has an output text, the refusal summary if any part refuses and the empty summary otherwise; every fallback has no issues and echoes the original document |
| `RenovateFeedbackService.ErrorTakesPrecedence` | backend/src/main/java/com/oglimmer/start_renovate/service/RenovateFeedbackService.java:96-114 | with an error present the summary starts with "OpenAI returned an error", issues are empty and the document is echoed, even when structured output is also present |
| `RenovateFeedbackService.LaterItemsDoNotMatter` | backend/src/main/java/com/oglimmer/start_renovate/service/RenovateFeedbackService.java:117-128 | no merging across outputs: once the leading items hold an output text, items appended after them leave the result unchanged |
| `RenovateFeedbackService.ToDtoIsFallbackOrPayload` | backend/src/main/java/com/oglimmer/start_renovate/service/RenovateFeedbackService.java:94-172 | whatever toDto returns normally is a fallback echoing the document or the first structured output of an error-free response, verbatim |
| `RenovateFeedbackService.Resolve` | backend/src/main/java/com/oglimmer/start_renovate/service/RenovateFeedbackService.java:54-63 | a response is resolved to exactly what toDto returns; an exception from the call or from extraction (a malformed first output text) gives "Failed to generate feedback: " and its message, no issues, the document echoed; so the result is a fallback or the first structured output verbatim |
| `RenovateFeedbackService.GetFeedback` | backend/src/main/java/com/oglimmer/start_renovate/service/RenovateFeedbackService.java:29-65 | one or two calls; the first uses the built prompt and the initial budget; a second is made iff the first response is INCOMPLETE for a non-filter reason, with the same prompt and the retry budget; the final outcome is the retry's when one was made, and the first's otherwise |
| `RenovateFeedbackService.FeedbackIsFallbackOrPayload` | backend/src/main/java/com/oglimmer/start_renovate/service/RenovateFeedbackService.java:29-63 | every invocation yields one value: a fallback echoing the document, or the first structured output of the final, error-free response |
| `RenovateFeedbackService.FirstCallFailure` | backend/src/main/java/com/oglimmer/start_renovate/service/RenovateFeedbackService.java:55-63 | a failing first call yields exactly the catch-all value ("Failed to generate feedback: " + message, no issues, document echoed) after one call |
| `RenovateFeedbackService.ContentFilteredResponseIsFinal` | backend/src/main/java/com/oglimmer/start_renovate/service/RenovateFeedbackService.java:37-52 | a content-filtered INCOMPLETE response causes no retry and is itself resolved |
| `RenovateFeedbackService.RetryOutcomeIsFinal` | backend/src/main/java/com/oglimmer/start_renovate/service/RenovateFeedbackService.java:39-54 | after a retry exactly two calls were made (initial then retry budget, same prompt) and the retry's outcome is resolved unconditionally, even when incomplete again |
| `RenovateFeedbackService.CompletedPayloadScenario` | backend/src/main/java/com/oglimmer/start_renovate/service/RenovateFeedbackService.java:117-128 | a completed response holding one structured output yields it verbatim after one call |
| `RenovateFeedbackService.TruncatedThenCompletedScenario` | backend/src/main/java/com/oglimmer/start_renovate/service/RenovateFeedbackService.java:32-54 | truncated at the default budget then completed: the retry's output is the result, after calls with budgets 1200 and 4096 |
| `RenovateFeedbackService.BuildPrompt` | backend/src/main/java/com/oglimmer/start_renovate/service/RenovateFeedbackService.java:174-186 | every prompt is the same fixed header followed by the document, so the document is the prompt's suffix |
| `RenovateFeedbackService.PromptHeaderShape` | backend/src/main/java/com/oglimmer/start_renovate/service/RenovateFeedbackService.java:175-185 | the header has eight lines, the last is "Renovate JSON:", and it ends with that line and a newline before the document |
| `RenovateFeedbackService.PromptDeterminesDocument` | backend/src/main/java/com/oglimmer/start_renovate/service/RenovateFeedbackService.java:174-186 | equal prompts come from equal documents (and, being a function, equal documents give equal prompts) |
| `RenovateSchemaValidationService.Trim` | backend/src/main/java/com/oglimmer/start_renovate/service/RenovateSchemaValidationService.java:66 | String.trim: the result is a middle part of the input outside which only characters up to U+0020 were cut, and it neither starts nor ends with one |
| `RenovateSchemaValidationService.FailureFromErrors` | backend/src/main/java/com/oglimmer/start_renovate/service/RenovateSchemaValidationService.java:63-67 | the buffer loop yields an invalid result whose message is the trimmed header plus one "- " + message + newline line per schema message, in iteration order |
| `RenovateSchemaValidationService.ReportShape` | backend/src/main/java/com/oglimmer/start_renovate/service/RenovateSchemaValidationService.java:63-67 | the formatted message starts with "JSON validation failed:" and its last character is above U+0020 (what String.trim keeps) |
| `RenovateSchemaValidationService.TrimDropsOnlyFinalNewline` | backend/src/main/java/com/oglimmer/start_renovate/service/RenovateSchemaValidationService.java:64-66 | when the last message ends in a visible character, trimming removes only the final newline, so every message line survives |
| `RenovateSchemaValidationService.Validate` | backend/src/main/java/com/oglimmer/start_renovate/service/RenovateSchemaValidationService.java:42-71 | valid iff the schema reports no messages, and then the message is null; an exception gives "Invalid JSON: " + its message, unchanged; some messages give exactly the formatted report of those messages (FailureReport), starting with the title; every invalid result has a message; no path throws |
| `FeedbackController.GetFeedback` | backend/src/main/java/com/oglimmer/start_renovate/controller/FeedbackController.java:28-37 | rejected iff validation of exactly the request's document fails, then with status 400 and "Invalid Renovate configuration: " + the message; otherwise the orchestrator's run for the same unchanged document |
| `FeedbackController.ModelCalledOnlyForValidDocuments` | backend/src/main/java/com/oglimmer/start_renovate/controller/FeedbackController.java:29-36 | remote calls happen iff the schema reports no messages for the document; at most two; the first prompt is built from that document |
| `FeedbackController.EveryRequestGetsOneAnswer` | backend/src/main/java/com/oglimmer/start_renovate/controller/FeedbackController.java:28-37 | every request is rejected with 400 and the fixed prefix, or answered with the first structured output of a model response verbatim or a fallback that echoes the document |

## Left out

- The SDK request itself (building `ResponseCreateParams`, the model name, the instruction text and
  the remote call) is foreign code. It is replaced by the scripted outcomes, and each call's prompt
  and budget are recorded.
- The guard around setting the minimal reasoning effort only protects a builder call and never
  re-issues a request. It has no effect on results and is not modelled.
- Reactor scheduling (`subscribeOn(boundedElastic())`) and the `Mono` plumbing are about where the
  work runs. The model is sequential.
- Logging, and the try/catch blocks that exist only around logging, have no effect on results.
- Loading the schema in `init` is resource I/O. Jackson parsing and the networknt schema engine are
  foreign libraries. A function `string -> SchemaCheck` stands for both: an exception with its
  message, or the schema's messages.
- The message set is modelled as a sequence in the set's iteration order. Duplicate messages that a
  set would merge are the engine's concern.
- `RenovateFeedbackService.ShouldRetry`: reads the status test `status == ResponseStatus.INCOMPLETE` as value
  equality. In Java `==` on objects compares identity. Whether a status read from a response is the
  very `INCOMPLETE` constant depends on the SDK, which is not part of this model. If the SDK builds a
  fresh status object per response, the retry as written never fires; the model does not capture that.
- `RenovateFeedbackService.EqualsIgnoreCase`: folds ASCII letters and the four non-ASCII characters
  whose Java case mapping lands on an ASCII letter (U+0130, U+0131, U+017F, U+212A). Java also
  matches two non-ASCII characters that differ only in case. That never matters here, because the
  only comparison is against the ASCII constant "CONTENT_FILTER".
- Java `null` strings are not modelled. A null exception message (printed as "null" by string
  concatenation) is just one possible message string. A structured output with null fields is one
  possible `FeedbackResponse`.
- The limit of at most eight issues is only requested in the instruction text, and no code enforces
  it. So no contract states it.
- OpenAIWebClientConfig (HTTP client wiring), the application bootstrap and the frontend build
  configuration are not part of this model. Of the configuration holder only the default
  maxOutputTokens (800) is used, as `DefaultMaxOutputTokens`.
