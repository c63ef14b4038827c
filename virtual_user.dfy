/**
 * One iteration of a virtual user (the script's default function): pick a prompt,
 * post it with retries, run the four checks, record the metrics, and choose the
 * base of the think-time pause.
 */
module VirtualUser {
  import opened Wrappers
  import opened Catalog
  import opened Http
  import opened Retry
  import opened Accounting
  import opened Metrics
  import opened JsString

  /** Responses at or above this duration fail the time check, except for long prompts. */
  const ResponseTimeLimitMs: real := 60000.0

  /** The `prompt_length` request tag, bucketed by the UTF-16 length of the prompt text. */
  function LengthTag(length: nat): (tag: string)
    ensures tag == "short" <==> length < 100
    ensures tag == "medium" <==> 100 <= length < 200
    ensures tag == "long" <==> 200 <= length
  {
    if length < 100 then "short" else if length < 200 then "medium" else "long"
  }

  /** The tags attached to the completion request. */
  datatype RequestTags = RequestTags(promptCategory: string, promptLength: string)

  /** The base of the think time, in seconds, before the 0 to 2 second jitter. */
  function ThinkTimeBase(category: string): (base: nat)
    ensures base == 1 <==> category == "short"
    ensures base == 2 <==> category == "medium"
    ensures base == 3 <==> category != "short" && category != "medium"
  {
    if category == "short" then 1 else if category == "medium" then 2 else 3
  }

  /**
   * The shipped prompts are 115, 201, 299, 510 and 718 characters long, and a character
   * is at least one UTF-16 code unit; so no `prompt_length` tag of theirs is short, and
   * all but the first are long (the two short-category prompts are not tagged short).
   */
  lemma ShippedLengthTags()
    ensures LengthTag(Utf16Length(ShortPythonJsText)) != "short"
    ensures LengthTag(Utf16Length(ShortJapanTripText)) == "long"
    ensures LengthTag(Utf16Length(MediumMachineLearningText)) == "long"
    ensures LengthTag(Utf16Length(MediumInvestingText)) == "long"
    ensures LengthTag(Utf16Length(LongMarketingPlanText)) == "long"
  {
    ShippedTextLengths();
    TagAtLeastCharacters(ShortPythonJsText);
    TagAtLeastCharacters(ShortJapanTripText);
    TagAtLeastCharacters(MediumMachineLearningText);
    TagAtLeastCharacters(MediumInvestingText);
    TagAtLeastCharacters(LongMarketingPlanText);
  }

  /** The length tag is never below the bucket of the character count. */
  lemma TagAtLeastCharacters(text: string)
    ensures 100 <= |text| ==> LengthTag(Utf16Length(text)) != "short"
    ensures 200 <= |text| ==> LengthTag(Utf16Length(text)) == "long"
  {
  }

  /**
   * Over the shipped catalog, think time starts from 1 s for draws below 55,
   * from 2 s for draws in [55, 90) and from 3 s for draws from 90 on.
   */
  lemma ShippedThinkTimeByDraw(r: real, p: Prompt)
    requires 0.0 <= r < 100.0
    requires SelectedBy(ShippedPrompts, r, p)
    ensures ThinkTimeBase(p.category) == 1 <==> r < 55.0
    ensures ThinkTimeBase(p.category) == 2 <==> 55.0 <= r < 90.0
    ensures ThinkTimeBase(p.category) == 3 <==> 90.0 <= r
  {
    ShippedCategoryByDraw(r, p);
  }

  /** The four named checks of the script. */
  datatype Checks = Checks(statusIs200: bool, hasContent: bool, fastEnough: bool, no5xx: bool)

  function RunChecks(prompt: Prompt, res: Response): (c: Checks)
    ensures c.hasContent <==> res.status == 200 && res.body.Parsed? && |res.body.text| > 0
    ensures c.fastEnough <==> res.durationMs < ResponseTimeLimitMs || prompt.category == "long"
    ensures c.hasContent ==> c.statusIs200 && c.no5xx
  {
    Checks(
      res.status == 200,
      res.status == 200 && (match res.body case Parsed(text, _) => |text| > 0 case Malformed => false),
      res.durationMs < ResponseTimeLimitMs || prompt.category == "long",
      res.status < 500)
  }

  /** k6's check: true exactly when every check passes. */
  predicate AllPass(c: Checks) {
    c.statusIs200 && c.hasContent && c.fastEnough && c.no5xx
  }

  /**
   * A successful iteration: a 200 whose body parses with a non-empty completion,
   * answered within the time limit unless the prompt is long.
   */
  predicate Succeeds(prompt: Prompt, res: Response) {
    && res.status == 200
    && res.body.Parsed?
    && |res.body.text| > 0
    && (res.durationMs < ResponseTimeLimitMs || prompt.category == "long")
  }

  /** The samples of the success path, in the order the script adds them. */
  function SuccessSamples(prompt: Prompt, text: string, usage: Usage, durationMs: real): (s: seq<Sample>)
    ensures |s| == 6
    ensures forall i :: 0 <= i < |s| ==> s[i].category == prompt.category
    ensures s[0].metric == TokensPerSecondTrend && s[1].metric == TotalTokensTrend
    ensures s[2].metric == PromptTokensTrend && s[3].metric == CompletionTokensTrend
    ensures s[4].metric == TimeToFirstTokenTrend && s[5] == Sample(ErrorRate, prompt.category, 0.0)
  {
    var tag := prompt.category;
    var c := DeriveTokens(prompt.text, text, usage);
    [ Sample(TokensPerSecondTrend, tag, Throughput(c.completion, durationMs)),
      Sample(TotalTokensTrend, tag, c.total as real),
      Sample(PromptTokensTrend, tag, c.prompt as real),
      Sample(CompletionTokensTrend, tag, c.completion as real),
      Sample(TimeToFirstTokenTrend, tag, TimeToFirstToken(durationMs)),
      Sample(ErrorRate, tag, 0.0) ]
  }

  /** What one iteration appends to the metric sink, given the prompt and the final response. */
  function IterationSamples(prompt: Prompt, res: Response): (s: seq<Sample>)
    ensures |s| > 0 && s[|s| - 1].metric == ErrorRate
    ensures forall i :: 0 <= i < |s| ==> s[i].category == prompt.category
  {
    if AllPass(RunChecks(prompt, res)) && res.status == 200 then
      SuccessSamples(prompt, res.body.text, res.body.usage, res.durationMs)
    else
      [Sample(ErrorRate, prompt.category, 1.0)]
  }

  /** The conjunction of the checks is the success condition. */
  lemma ChecksPassIffSucceeds(prompt: Prompt, res: Response)
    ensures AllPass(RunChecks(prompt, res)) <==> Succeeds(prompt, res)
  {
  }

  /** Every iteration records exactly one `errors` sample. */
  lemma OneErrorSample(prompt: Prompt, res: Response)
    ensures CountOf(IterationSamples(prompt, res), ErrorRate) == 1
  {
    var s := IterationSamples(prompt, res);
    assert s == s[..|s| - 1] + [s[|s| - 1]];
    CountOfAppend(s[..|s| - 1], [s[|s| - 1]], ErrorRate);
    assert [s[|s| - 1]][..0] == [];
    CountOfAbsent(s[..|s| - 1], ErrorRate);
  }

  /** The `errors` sample is 0 exactly for a successful iteration and 1 otherwise. */
  lemma ErrorValueIff(prompt: Prompt, res: Response)
    ensures Sample(ErrorRate, prompt.category, 0.0) in IterationSamples(prompt, res) <==> Succeeds(prompt, res)
    ensures Sample(ErrorRate, prompt.category, 1.0) in IterationSamples(prompt, res) <==> !Succeeds(prompt, res)
  {
  }

  /**
   * On success one sample goes to each Trend, in script order, with the derived
   * token counts, the throughput, 12% of the duration as time to first token, and then errors = 0.
   */
  lemma SuccessPathSamples(prompt: Prompt, res: Response)
    requires Succeeds(prompt, res)
    ensures var s := IterationSamples(prompt, res);
      var c := DeriveTokens(prompt.text, res.body.text, res.body.usage);
      && |s| == 6
      && s[0] == Sample(TokensPerSecondTrend, prompt.category, Throughput(c.completion, res.durationMs))
      && s[1] == Sample(TotalTokensTrend, prompt.category, c.total as real)
      && s[2] == Sample(PromptTokensTrend, prompt.category, c.prompt as real)
      && s[3] == Sample(CompletionTokensTrend, prompt.category, c.completion as real)
      && s[4] == Sample(TimeToFirstTokenTrend, prompt.category, res.durationMs * FirstTokenShare)
      && s[5] == Sample(ErrorRate, prompt.category, 0.0)
  {
  }

  /** On failure the only sample is errors = 1: no Trend receives anything. */
  lemma FailurePathSamples(prompt: Prompt, res: Response)
    requires !Succeeds(prompt, res)
    ensures IterationSamples(prompt, res) == [Sample(ErrorRate, prompt.category, 1.0)]
  {
  }

  /** A slow 200 for a prompt that is not long counts as an error. */
  lemma SlowResponseIsError(prompt: Prompt, res: Response)
    requires res.status == 200 && res.body.Parsed? && |res.body.text| > 0
    requires res.durationMs >= ResponseTimeLimitMs && prompt.category != "long"
    ensures IterationSamples(prompt, res) == [Sample(ErrorRate, prompt.category, 1.0)]
  {
    FailurePathSamples(prompt, res);
  }

  /**
   * A 200 answer "hello world" with usage 5/2/7 after 1000 ms records 2 completion tokens,
   * 2 tokens per second and 120 ms to first token.
   */
  lemma HelloWorldExample(prompt: Prompt)
    ensures var res := Response(200, Parsed("hello world", Usage(Some(5), Some(2), Some(7))), 1000.0);
      var tag := prompt.category;
      IterationSamples(prompt, res) ==
        [ Sample(TokensPerSecondTrend, tag, 2.0),
          Sample(TotalTokensTrend, tag, 7.0),
          Sample(PromptTokensTrend, tag, 5.0),
          Sample(CompletionTokensTrend, tag, 2.0),
          Sample(TimeToFirstTokenTrend, tag, 120.0),
          Sample(ErrorRate, tag, 0.0) ]
  {
  }

  /** Over any number of iterations the sink holds one `errors` sample per iteration. */
  lemma ErrorSamplesCountIterations(before: seq<Sample>, prompt: Prompt, res: Response)
    ensures CountOf(before + IterationSamples(prompt, res), ErrorRate) == CountOf(before, ErrorRate) + 1
  {
    CountOfAppend(before, IterationSamples(prompt, res), ErrorRate);
    OneErrorSample(prompt, res);
  }

  /**
   * The default function: selection with draw `r`, postWithRetry with the default budget,
   * the checks and the metrics, and the category's think-time base.
   */
  method Iteration(sink: MetricSink, server: Server, catalog: seq<Prompt>, r: real)
    returns (prompt: Prompt, requestTags: RequestTags, thinkBase: nat)
    requires |catalog| > 0 && DefaultTries < |server.pending|
    modifies sink, server
    ensures SelectedBy(catalog, r, prompt)
    ensures requestTags == RequestTags(prompt.category, LengthTag(Utf16Length(prompt.text)))
    ensures var a := RetryOutcome(old(server.pending), DefaultTries);
      && server.pending == old(server.pending)[a.calls..]
      && server.posts == old(server.posts) + a.calls
      && sink.samples == old(sink.samples) + IterationSamples(prompt, a.response)
    ensures thinkBase == ThinkTimeBase(prompt.category)
  {
    prompt := GetRandomPrompt(catalog, r);
    requestTags := RequestTags(prompt.category, LengthTag(Utf16Length(prompt.text)));
    var res := PostWithRetry(server, DefaultTries);
    var tag := prompt.category;
    var ok := AllPass(RunChecks(prompt, res));
    if ok && res.status == 200 {
      // The has-content check parsed this body already, so it is Parsed here.
      var text, usage := res.body.text, res.body.usage;
      var c := DeriveTokens(prompt.text, text, usage);
      var tps := Throughput(c.completion, res.durationMs);
      sink.Add(TokensPerSecondTrend, tag, tps);
      sink.Add(TotalTokensTrend, tag, c.total as real);
      sink.Add(PromptTokensTrend, tag, c.prompt as real);
      sink.Add(CompletionTokensTrend, tag, c.completion as real);
      sink.Add(TimeToFirstTokenTrend, tag, TimeToFirstToken(res.durationMs));
      sink.Add(ErrorRate, tag, 0.0);
    } else {
      sink.Add(ErrorRate, tag, 1.0);
    }
    thinkBase := ThinkTimeBase(prompt.category);
  }
}
