/**
 * The feedback orchestrator (RenovateFeedbackService): token budgets, the single
 * conditional retry on an incomplete response, the classification of the final
 * response into a FeedbackResponse, the catch-all fallback and the prompt builder.
 *
 * The remote structured-output call is not modelled; a Script supplies its
 * outcomes, and every Run records the (prompt, token budget) of each call made.
 */
module RenovateFeedbackService {
  import opened Wrappers
  import opened Dto

  // ---------------------------------------------------------------------------
  // The provider's response, as far as the orchestrator looks at it
  // ---------------------------------------------------------------------------

  /** The provider's response status; `Unrecognized` stands for a value the SDK does not know. */
  datatype Status = Completed | Failed | InProgress | Cancelled | Queued | Incomplete | Unrecognized

  /** An error payload; `message` is None when reading the message field fails. */
  datatype ApiError = ApiError(message: Option<string>)

  /**
   * A structured output text as the SDK hands it out: deserialised into a
   * FeedbackResponse, or text that does not deserialise, in which case reading
   * it raises an exception carrying `reason`.
   */
  datatype Payload = Parsed(feedback: FeedbackResponse) | Malformed(reason: string)

  /** One content part of a message: a structured output text and/or a refusal marker. */
  datatype Content = Content(outputText: Option<Payload>, refusal: Option<string>)

  /** One output item; only message items carry content. */
  datatype Item = Item(message: Option<seq<Content>>)

  datatype Response = Response(
    status: Option<Status>,
    incompleteReason: Option<string>,
    error: Option<ApiError>,
    output: seq<Item>)

  /** What one remote call yields: a response, or an exception with its message. */
  datatype Outcome = Ok(response: Response) | Fail(message: string)

  /** The scripted remote side: the outcome of the first call and, if one is made, of the retry. */
  datatype Script = Script(first: Outcome, retry: Outcome)

  /** The arguments of one remote call. */
  datatype Call = Call(prompt: string, maxOutputTokens: int)

  /** The result of one getFeedback invocation and the remote calls it made, in order. */
  datatype Run = Run(feedback: FeedbackResponse, calls: seq<Call>)

  // ---------------------------------------------------------------------------
  // Token budgets
  // ---------------------------------------------------------------------------

  /** The configured maxOutputTokens when the configuration leaves it unset. */
  const DefaultMaxOutputTokens: int := 800
  const MinInitialTokens: int := 1200
  const MinRetryTokens: int := 4096
  const MaxRetryTokens: int := 8192

  /**
   * The budget of the first call: the larger of 1200 and the configured value.
   * The configured value is a Java int widened to long, so no overflow arises.
   */
  function InitialTokens(configured: int): (r: int)
    ensures r >= MinInitialTokens && r >= configured
    ensures r == MinInitialTokens || r == configured
  {
    if configured > MinInitialTokens then configured else MinInitialTokens
  }

  /**
   * The budget of the retry: twice the initial budget, clamped to [4096, 8192].
   * It is smaller than the initial budget exactly when that exceeds 8192.
   */
  function RetryTokens(initial: int): (r: int)
    ensures MinRetryTokens <= r <= MaxRetryTokens
    ensures MinRetryTokens <= 2 * initial <= MaxRetryTokens ==> r == 2 * initial
    ensures 2 * initial < MinRetryTokens ==> r == MinRetryTokens
    ensures 2 * initial > MaxRetryTokens ==> r == MaxRetryTokens
    ensures initial > 0 ==> (r > initial <==> initial < MaxRetryTokens)
    ensures initial > MaxRetryTokens ==> r < initial
  {
    var doubled := 2 * initial;
    var floored := if doubled > MinRetryTokens then doubled else MinRetryTokens;
    if floored < MaxRetryTokens then floored else MaxRetryTokens
  }

  /** With the default configuration the two budgets are 1200 and 4096. */
  lemma DefaultBudgets()
    ensures InitialTokens(DefaultMaxOutputTokens) == 1200
    ensures RetryTokens(InitialTokens(DefaultMaxOutputTokens)) == 4096
  {
  }

  // ---------------------------------------------------------------------------
  // Retry decision
  // ---------------------------------------------------------------------------

  const ContentFilter: string := "CONTENT_FILTER"
  /** The reason text used when the response names no incompleteness reason. */
  const UnknownReason: string := "unknown"

  /**
   * The key under which Java's equalsIgnoreCase compares a character with an
   * ASCII letter: ASCII letters fold to upper case, and the four non-ASCII
   * characters whose Java case mapping lands on an ASCII letter fold onto it.
   */
  function CaseKey(c: char): char {
    if 'a' <= c <= 'z' then (c as int - 32) as char
    else if c == '\U{0130}' || c == '\U{0131}' then 'I'
    else if c == '\U{017F}' then 'S'
    else if c == '\U{212A}' then 'K'
    else c
  }

  /** Java's String.equalsIgnoreCase, character by character under CaseKey. */
  predicate EqualsIgnoreCase(a: string, b: string) {
    |a| == |b| && forall i :: 0 <= i < |a| ==> CaseKey(a[i]) == CaseKey(b[i])
  }

  /** The reason as the orchestrator reads it: an absent reason reads as "unknown". */
  function ReasonText(reason: Option<string>): string {
    reason.GetOr(UnknownReason)
  }

  /**
   * A second call is made iff the first response is INCOMPLETE for a reason
   * other than the content filter; an absent status never retries.
   */
  predicate ShouldRetry(res: Response)
  {
    res.status == Some(Incomplete) && !EqualsIgnoreCase(ReasonText(res.incompleteReason), ContentFilter)
  }

  /** An incomplete response without a reason is retried, as "unknown" is not the filter. */
  lemma AbsentReasonRetries(res: Response)
    requires res.status == Some(Incomplete) && res.incompleteReason.None?
    ensures ShouldRetry(res)
  {
    assert |ReasonText(res.incompleteReason)| != |ContentFilter|;
  }

  /** The SDK reports the filter as "content_filter"; the case-insensitive test catches it. */
  lemma ContentFilterIsNotRetried(res: Response)
    requires res.incompleteReason == Some("content_filter")
    ensures !ShouldRetry(res)
  {
    var reason := ReasonText(res.incompleteReason);
    assert reason == "content_filter";
    forall i | 0 <= i < |reason| ensures CaseKey(reason[i]) == CaseKey(ContentFilter[i]) {
    }
  }

  /** Truncation by the token budget ("max_output_tokens") is retried. */
  lemma TruncationIsRetried(res: Response)
    requires res.status == Some(Incomplete) && res.incompleteReason == Some("max_output_tokens")
    ensures ShouldRetry(res)
  {
    assert |ReasonText(res.incompleteReason)| != |ContentFilter|;
  }

  // ---------------------------------------------------------------------------
  // Extraction from the final response (toDto)
  // ---------------------------------------------------------------------------

  const ErrorSummary: string := "OpenAI returned an error"
  const RefusalSummary: string := "Model refused to generate structured output due to safety policy."
  const EmptySummary: string := "No structured output returned by the model."
  const FailureSummaryPrefix: string := "Failed to generate feedback: "

  /** A degraded result: no issues, and the original document echoed back. */
  function Fallback(summary: string, originalJson: string): FeedbackResponse {
    FeedbackResponse(summary, [], originalJson)
  }

  /** The error summary, with ": " and the message appended when the message can be read. */
  function ErrorText(e: ApiError): string {
    match e.message
    case Some(m) => ErrorSummary + ": " + m
    case None => ErrorSummary
  }

  /** The content parts of all message items, items in order and parts in order. */
  function MessageContents(items: seq<Item>): (cs: seq<Content>)
    ensures forall c :: c in cs ==>
      exists i :: 0 <= i < |items| && items[i].message.Some? && c in items[i].message.value
    ensures forall i, c :: 0 <= i < |items| && items[i].message.Some? && c in items[i].message.value ==> c in cs
  {
    if items == [] then []
    else
      var rest := MessageContents(items[1..]);
      assert forall i :: 1 <= i < |items| ==> items[i] == items[1..][i - 1];
      match items[0].message
      case Some(parts) => parts + rest
      case None => rest
  }

  /** A single item contributes its message's parts, in their order, or nothing without a message. */
  lemma MessageContentsOne(it: Item)
    ensures MessageContents([it]) == it.message.GetOr([])
  {
    assert [it][1..] == [];
  }

  /** Scanning two runs of items one after the other scans their contents one after the other. */
  lemma {:induction false} MessageContentsAppend(a: seq<Item>, b: seq<Item>)
    ensures MessageContents(a + b) == MessageContents(a) + MessageContents(b)
  {
    if a == [] {
      assert a + b == b;
    } else {
      assert (a + b)[1..] == a[1..] + b;
      MessageContentsAppend(a[1..], b);
    }
  }

  /** `k` is the position of the first content part that carries an output text. */
  ghost predicate IsFirstText(cs: seq<Content>, k: int) {
    0 <= k < |cs| && cs[k].outputText.Some? && forall j :: 0 <= j < k ==> cs[j].outputText.None?
  }

  /** The output text of the first content part that has one (findFirst). */
  function FirstText(cs: seq<Content>): (r: Option<Payload>)
    ensures r.None? <==> forall k :: 0 <= k < |cs| ==> cs[k].outputText.None?
    ensures r.Some? ==> exists k :: IsFirstText(cs, k) && cs[k].outputText == r
  {
    if cs == [] then None
    else if cs[0].outputText.Some? then
      assert IsFirstText(cs, 0);
      cs[0].outputText
    else
      var r := FirstText(cs[1..]);
      assert forall k :: 1 <= k < |cs| ==> cs[k] == cs[1..][k - 1];
      assert r.Some? ==> exists k :: IsFirstText(cs[1..], k) && cs[1..][k].outputText == r;
      assert forall k :: IsFirstText(cs[1..], k) ==> IsFirstText(cs, k + 1);
      r
  }

  /** Whether any content part carries a refusal marker (anyMatch). */
  function AnyRefusal(cs: seq<Content>): (b: bool)
    ensures b <==> exists k :: 0 <= k < |cs| && cs[k].refusal.Some?
  {
    if cs == [] then false
    else
      assert forall k :: 1 <= k < |cs| ==> cs[k] == cs[1..][k - 1];
      cs[0].refusal.Some? || AnyRefusal(cs[1..])
  }

  /**
   * toDto: provider error first, then the first structured output verbatim,
   * then refusal, then empty. Reading a malformed first output text raises an
   * exception, which is returned as a Failure carrying its message.
   */
  function ToDto(res: Response, originalJson: string): (r: Result<FeedbackResponse, string>)
    ensures res.error.Some? ==> r == Success(Fallback(ErrorText(res.error.value), originalJson))
    ensures res.error.None? ==> forall k :: IsFirstText(MessageContents(res.output), k) ==>
      match MessageContents(res.output)[k].outputText.value
      case Parsed(p) => r == Success(p)
      case Malformed(m) => r == Failure(m)
    ensures res.error.None? && (forall k :: 0 <= k < |MessageContents(res.output)| ==>
                                   MessageContents(res.output)[k].outputText.None?) ==>
      r == Success(Fallback(
        if exists k :: 0 <= k < |MessageContents(res.output)| && MessageContents(res.output)[k].refusal.Some?
        then RefusalSummary else EmptySummary,
        originalJson))
  {
    if res.error.Some? then
      Success(Fallback(ErrorText(res.error.value), originalJson))
    else
      var cs := MessageContents(res.output);
      FirstTextUnique(cs);
      match FirstText(cs)
      case Some(Parsed(p)) => Success(p)
      case Some(Malformed(m)) => Failure(m)
      case None =>
        if AnyRefusal(cs) then Success(Fallback(RefusalSummary, originalJson))
        else Success(Fallback(EmptySummary, originalJson))
  }

  /** There is at most one first output text. */
  lemma FirstTextUnique(cs: seq<Content>)
    ensures forall k, l :: IsFirstText(cs, k) && IsFirstText(cs, l) ==> k == l
  {
  }

  /** An error payload wins over any structured output present in the same response. */
  lemma ErrorTakesPrecedence(res: Response, originalJson: string)
    requires res.error.Some?
    ensures ToDto(res, originalJson).Success?
    ensures var f := ToDto(res, originalJson).value;
      StartsWith(f.summary, ErrorSummary) && f.issues == [] && f.improvedRenovateJson == originalJson
  {
  }

  /**
   * No merging across outputs: once the leading items hold an output text,
   * items appended after them do not change the result.
   */
  lemma {:induction false} LaterItemsDoNotMatter(res: Response, extra: seq<Item>, originalJson: string)
    requires FirstText(MessageContents(res.output)).Some?
    ensures ToDto(res.(output := res.output + extra), originalJson) == ToDto(res, originalJson)
  {
    MessageContentsAppend(res.output, extra);
    FirstTextAppend(MessageContents(res.output), MessageContents(extra));
  }

  lemma {:induction false} FirstTextAppend(a: seq<Content>, b: seq<Content>)
    requires FirstText(a).Some?
    ensures FirstText(a + b) == FirstText(a)
  {
    if a[0].outputText.None? {
      assert (a + b)[1..] == a[1..] + b;
      FirstTextAppend(a[1..], b);
    }
  }

  // ---------------------------------------------------------------------------
  // The whole pipeline (getFeedback)
  // ---------------------------------------------------------------------------

  /** The summary of the catch-all fallback for an exception with message `m`. */
  function FailureText(m: string): string {
    FailureSummaryPrefix + m
  }

  /** `s` begins with `prefix`. */
  predicate StartsWith(s: string, prefix: string) {
    |prefix| <= |s| && s[..|prefix|] == prefix
  }

  /** A fallback value: empty issues, the document echoed, and one of the fixed summaries. */
  ghost predicate IsFallback(f: FeedbackResponse, originalJson: string) {
    && f.issues == []
    && f.improvedRenovateJson == originalJson
    && (|| StartsWith(f.summary, ErrorSummary)
        || f.summary == RefusalSummary
        || f.summary == EmptySummary
        || StartsWith(f.summary, FailureSummaryPrefix))
  }

  /** `f` is the first structured output of an error-free response, verbatim. */
  ghost predicate ProviderPayload(outcome: Outcome, f: FeedbackResponse) {
    && outcome.Ok?
    && outcome.response.error.None?
    && var cs := MessageContents(outcome.response.output);
       exists k :: IsFirstText(cs, k) && cs[k].outputText == Some(Parsed(f))
  }

  /** What toDto returns normally is a fallback or the response's first structured output. */
  lemma ToDtoIsFallbackOrPayload(res: Response, originalJson: string)
    requires ToDto(res, originalJson).Success?
    ensures IsFallback(ToDto(res, originalJson).value, originalJson) ||
      ProviderPayload(Ok(res), ToDto(res, originalJson).value)
  {
    var cs := MessageContents(res.output);
    if res.error.None? && FirstText(cs).Some? {
      var k :| IsFirstText(cs, k) && cs[k].outputText == FirstText(cs);
    }
  }

  /**
   * The final response turned into a FeedbackResponse; an exception, from the
   * call or from extraction, becomes the catch-all fallback.
   */
  function Resolve(outcome: Outcome, originalJson: string): (f: FeedbackResponse)
    ensures IsFallback(f, originalJson) || ProviderPayload(outcome, f)
    ensures outcome.Fail? ==> f == Fallback(FailureText(outcome.message), originalJson)
    ensures outcome.Ok? && ToDto(outcome.response, originalJson).Success? ==>
      f == ToDto(outcome.response, originalJson).value
    ensures outcome.Ok? && ToDto(outcome.response, originalJson).Failure? ==>
      f == Fallback(FailureText(ToDto(outcome.response, originalJson).error), originalJson)
  {
    match outcome
    case Fail(m) => Fallback(FailureText(m), originalJson)
    case Ok(res) =>
      match ToDto(res, originalJson)
      case Success(f) =>
        ToDtoIsFallbackOrPayload(res, originalJson);
        f
      case Failure(m) => Fallback(FailureText(m), originalJson)
  }

  /**
   * getFeedback: build the prompt, call once with the initial budget, call a
   * second time with the same prompt and the retry budget iff the first
   * response asks for it, and resolve whichever response is final.
   */
  function GetFeedback(json: string, configuredMaxOutputTokens: int, script: Script): (run: Run)
    ensures 1 <= |run.calls| <= 2
    ensures run.calls[0] == Call(BuildPrompt(json), InitialTokens(configuredMaxOutputTokens))
    ensures |run.calls| == 2 <==> script.first.Ok? && ShouldRetry(script.first.response)
    ensures |run.calls| == 2 ==>
      run.calls[1] == Call(run.calls[0].prompt, RetryTokens(run.calls[0].maxOutputTokens))
    ensures run.feedback == Resolve(if |run.calls| == 2 then script.retry else script.first, json)
  {
    var prompt := BuildPrompt(json);
    var initialTokens := InitialTokens(configuredMaxOutputTokens);
    var first := Call(prompt, initialTokens);
    match script.first
    case Fail(_) => Run(Resolve(script.first, json), [first])
    case Ok(res) =>
      if ShouldRetry(res) then
        Run(Resolve(script.retry, json), [first, Call(prompt, RetryTokens(initialTokens))])
      else
        Run(Resolve(script.first, json), [first])
  }

  /**
   * Every path yields one value that is either a fallback echoing the input or a
   * structured output of the final response, used verbatim.
   */
  lemma FeedbackIsFallbackOrPayload(json: string, configured: int, script: Script)
    ensures var run := GetFeedback(json, configured, script);
      IsFallback(run.feedback, json) ||
      ProviderPayload(if |run.calls| == 2 then script.retry else script.first, run.feedback)
  {
  }

  /** A transport failure on the first call gives the catch-all fallback and no retry. */
  lemma FirstCallFailure(json: string, configured: int, m: string)
    ensures forall retry :: (GetFeedback(json, configured, Script(Fail(m), retry)) ==
      Run(FeedbackResponse(FailureSummaryPrefix + m, [], json),
          [Call(BuildPrompt(json), InitialTokens(configured))]))
  {
  }

  /**
   * A content-filtered incomplete response is not retried; it is resolved as it is,
   * whatever the script holds for a retry.
   */
  lemma ContentFilteredResponseIsFinal(json: string, configured: int, res: Response, retry: Outcome)
    requires res.status == Some(Incomplete)
    requires res.incompleteReason.Some? && EqualsIgnoreCase(res.incompleteReason.value, ContentFilter)
    ensures GetFeedback(json, configured, Script(Ok(res), retry)) ==
      Run(Resolve(Ok(res), json), [Call(BuildPrompt(json), InitialTokens(configured))])
  {
  }

  /**
   * After a retry the retry's outcome is final, even when it is incomplete
   * again: no third call is made.
   */
  lemma RetryOutcomeIsFinal(json: string, configured: int, res: Response, retry: Outcome)
    requires ShouldRetry(res)
    ensures var run := GetFeedback(json, configured, Script(Ok(res), retry));
      && run.calls == [Call(BuildPrompt(json), InitialTokens(configured)),
                       Call(BuildPrompt(json), RetryTokens(InitialTokens(configured)))]
      && run.feedback == Resolve(retry, json)
  {
  }

  /** A completed response carrying a structured output yields that output, after one call. */
  lemma CompletedPayloadScenario(json: string, configured: int, payload: FeedbackResponse, retry: Outcome)
    ensures var res := Response(Some(Completed), None, None,
                                [Item(Some([Content(Some(Parsed(payload)), None)]))]);
      GetFeedback(json, configured, Script(Ok(res), retry)) ==
        Run(payload, [Call(BuildPrompt(json), InitialTokens(configured))])
  {
    var res := Response(Some(Completed), None, None, [Item(Some([Content(Some(Parsed(payload)), None)]))]);
    assert MessageContents(res.output) == [Content(Some(Parsed(payload)), None)];
  }

  /**
   * Truncated at the default budget, then completed on the retry: the retry's
   * output is the result, after exactly two calls with budgets 1200 and 4096.
   */
  lemma TruncatedThenCompletedScenario(json: string, payload: FeedbackResponse)
    ensures var first := Response(Some(Incomplete), Some("max_output_tokens"), None, []);
      var second := Response(Some(Completed), None, None,
                             [Item(Some([Content(Some(Parsed(payload)), None)]))]);
      GetFeedback(json, DefaultMaxOutputTokens, Script(Ok(first), Ok(second))) ==
        Run(payload, [Call(BuildPrompt(json), 1200), Call(BuildPrompt(json), 4096)])
  {
    var first := Response(Some(Incomplete), Some("max_output_tokens"), None, []);
    var second := Response(Some(Completed), None, None, [Item(Some([Content(Some(Parsed(payload)), None)]))]);
    TruncationIsRetried(first);
    assert MessageContents(second.output) == [Content(Some(Parsed(payload)), None)];
  }

  // ---------------------------------------------------------------------------
  // Prompt builder
  // ---------------------------------------------------------------------------

  /** The fixed instruction lines that precede the document. */
  const PromptHeaderLines: seq<string> := [
    "You are an expert on Renovate configuration and best practices.",
    "Analyze the provided Renovate JSON config and produce:",
    "- A short summary of the configuration and its quality.",
    "- A list of concrete issues with fields: severity (info|warning|error), jsonPath, message, suggestion.",
    "- An improvedRenovateJson containing a corrected/optimized config (valid JSON).",
    "Respond strictly as a JSON object matching the specified fields. Do not include any extra text.",
    "",
    "Renovate JSON:"
  ]

  /** Java's String.join: the parts with `sep` between consecutive ones. */
  function Join(sep: string, parts: seq<string>): string {
    if |parts| == 0 then ""
    else if |parts| == 1 then parts[0]
    else Join(sep, parts[..|parts| - 1]) + sep + parts[|parts| - 1]
  }

  /** Everything of a prompt before the document: the header lines and one more separator. */
  const PromptHeader: string := Join("\n", PromptHeaderLines) + "\n"

  /**
   * The prompt: the eight header lines and the document joined by newlines.
   * Every prompt starts with the same header, the document is its suffix, and
   * the header's last line is "Renovate JSON:".
   */
  function BuildPrompt(renovateJson: string): (p: string)
    ensures |p| == |PromptHeader| + |renovateJson|
    ensures p[..|PromptHeader|] == PromptHeader
    ensures p[|PromptHeader|..] == renovateJson
  {
    var parts := PromptHeaderLines + [renovateJson];
    assert parts[..|parts| - 1] == PromptHeaderLines;
    Join("\n", parts)
  }

  /** The header ends with the line "Renovate JSON:" and a newline, and has eight lines. */
  lemma PromptHeaderShape()
    ensures |PromptHeaderLines| == 8 && PromptHeaderLines[7] == "Renovate JSON:"
    ensures var tail := "\nRenovate JSON:\n";
      |tail| <= |PromptHeader| && PromptHeader[|PromptHeader| - |tail|..] == tail
  {
    var lines := PromptHeaderLines;
    assert lines[..7][..6] == lines[..6];
    assert lines[..8][..7] == lines[..7];
    assert Join("\n", lines) == Join("\n", lines[..7]) + "\n" + "Renovate JSON:";
  }

  /** The prompt determines the document: different documents give different prompts. */
  lemma PromptDeterminesDocument(a: string, b: string)
    requires BuildPrompt(a) == BuildPrompt(b)
    ensures a == b
  {
    assert a == BuildPrompt(a)[|PromptHeader|..];
  }
}
