# Load-test iteration logic of the vLLM k6 script, in Dafny

This project models the decision logic of the k6 load-test script
`gpt-oss-20b/without_load_balancer/vllm-test.js`, which drives a vLLM completion
endpoint from many virtual users. One iteration of a virtual user:

1. picks a prompt from a fixed weighted catalog (`getRandomPrompt`);
2. posts it, retrying on 429 and 5xx with a budget of two retries (`postWithRetry`);
3. runs four checks (status 200, non-empty completion text, under 60 s unless the
   prompt is long, no 5xx);
4. on success, derives prompt, completion and total tokens (server usage first,
   else one token per four characters), tokens per second and an approximate time
   to first token, and records them in five Trends tagged by `prompt_category`;
5. records exactly one `errors` sample: 0 on success, 1 otherwise;
6. picks a think-time base by category (1, 2 or 3 seconds).

Modules, one per concern of the script:

- `Wrappers`: `Option`, for JSON fields that may be absent (`??` is `GetOr`).
- `JsString`: JavaScript string length in UTF-16 code units.
- `Catalog`: the prompts, prefix sums of the weights, the pick and its meaning.
- `Http`: a response (status, parsed body, duration) and a `Server` class that
  answers each post with the next scripted response.
- `Retry`: the retry outcome as a function and the recursive `PostWithRetry` method.
- `Accounting`: the token defaults, the throughput and time-to-first-token formulas.
- `Metrics`: samples and the append-only `MetricSink` class.
- `VirtualUser`: tags, checks, think time, the samples of one iteration, and the
  `Iteration` method that runs the default function against a sink and a server.

Inputs stand in for what the script gets from outside:

- The random draw `Math.random() * totalWeight` is a parameter `r: real`.
- The server is the sequence of responses it will give.
- `JSON.parse` is replaced by its result: `Parsed(text, usage)` or `Malformed`.
- `timings.duration` is a field of the response.

Behaviour of the script worth noting:

- When no prompt covers the draw, the pick falls back to the first prompt, not the last.
- Retries go to 429 and to every status of 500 or more, and to nothing else. A
  transport failure, which k6 reports as status 0, is not retried.
- After retries are exhausted the last (retryable) response is returned and judged
  by the checks like any other.
- A malformed 200 counts in `errors`.
- Lengths (`.length` for the `prompt_length` tag and the token estimates) are
  JavaScript lengths: UTF-16 code units, so a character outside the Basic
  Multilingual Plane counts twice (`JsString.Utf16Length`).

Numbers: weights, draws, durations, throughput and time to first token are `real`,
with exact division. Token counts are `int`.

## Model

| member | source | states |
|---|---|---|
| `Catalog.GetRandomPrompt` | gpt-oss-20b/without_load_balancer/vllm-test.js:77-82 | returns the first prompt whose prefix weight sum exceeds the draw, and the first prompt of the catalog when none does |
| `Catalog.SelectionInterval` | gpt-oss-20b/without_load_balancer/vllm-test.js:78-80 | for non-negative weights and draw, prompt i is the first covering prompt exactly when the draw lies in [w0+…+w(i-1), w0+…+wi), an interval as wide as its weight; for a draw below the total weight that is the prompt picked (`PickedIndex`) |
| `Catalog.DrawIsCovered` | gpt-oss-20b/without_load_balancer/vllm-test.js:78-81 | every draw in [0, total weight) is covered by some prompt, so the fallback is unreachable |
| `Catalog.PrefixBelowTotal` | gpt-oss-20b/without_load_balancer/vllm-test.js:78 | for non-negative weights, `TotalWeight` (the reduce over the catalog) is at least every prefix sum, and each prefix sum is non-negative |
| `Catalog.PickedIndex` | gpt-oss-20b/without_load_balancer/vllm-test.js:79-80 | a draw in [0, total weight) yields the prompt at its first covering index |
| `Catalog.FallbackIsFirst` | gpt-oss-20b/without_load_balancer/vllm-test.js:81 | a draw at or beyond the total weight yields prompts[0] |
| `Catalog.ShippedTotal` | gpt-oss-20b/without_load_balancer/vllm-test.js:56-78 | the shipped weights are non-negative, with prefix sums 30, 55, 75, 90 and total 100 |
| `Catalog.ShippedShortWeight` | gpt-oss-20b/without_load_balancer/vllm-test.js:59-63 | the short prompts weigh 55 together |
| `Catalog.ShippedMediumWeight` | gpt-oss-20b/without_load_balancer/vllm-test.js:65-69 | the medium prompts weigh 35 together |
| `Catalog.ShippedLongWeight` | gpt-oss-20b/without_load_balancer/vllm-test.js:71-73 | the long prompt weighs 10 |
| `Catalog.ShippedTextLengths` | gpt-oss-20b/without_load_balancer/vllm-test.js:61-73 | the shipped prompt texts are 115, 201, 299, 510 and 718 characters long |
| `Catalog.ShippedCategoryByDraw` | gpt-oss-20b/without_load_balancer/vllm-test.js:56-81 | over the shipped catalog the pick is short iff r < 55, medium iff 55 <= r < 90, long iff r >= 90 |
| `Http.Server.Post` | gpt-oss-20b/without_load_balancer/vllm-test.js:86 | one post consumes exactly the next scripted response and counts one call |
| `Retry.RetryableStatuses` | gpt-oss-20b/without_load_balancer/vllm-test.js:87 | `IsRetryable` holds for 429 and for 500 and above, and fails for status 0, 200 and every other 4xx |
| `Retry.RetryOutcome` | gpt-oss-20b/without_load_balancer/vllm-test.js:85-92 | between 1 and tries+1 posts; every answer before the last is 429 or 5xx; the last answer is returned; if it is still retryable the whole budget was spent |
| `Retry.StopRuleDeterminesOutcome` | gpt-oss-20b/without_load_balancer/vllm-test.js:87-91 | the stop rule has at most one outcome, so it fully specifies the helper |
| `Retry.AlwaysRetryableSpendsBudget` | gpt-oss-20b/without_load_balancer/vllm-test.js:85-91 | a server that keeps failing gets exactly tries+1 posts and its last failing answer is returned |
| `Retry.FirstSettledIsReturned` | gpt-oss-20b/without_load_balancer/vllm-test.js:87-91 | the first answer that is neither 429 nor 5xx within the budget is returned after k+1 posts |
| `Retry.PostWithRetry` | gpt-oss-20b/without_load_balancer/vllm-test.js:85-92 | the recursion posts exactly as many times as the stop rule says, returns that response and leaves the remaining answers |
| `Accounting.EstimateTokens` | gpt-oss-20b/without_load_balancer/vllm-test.js:163-164 | the estimate is ceil(units/4): the least count whose four-unit tokens hold the text |
| `Accounting.DeriveTokens` | gpt-oss-20b/without_load_balancer/vllm-test.js:160-165 | a reported field (zero included) is kept; an absent prompt or completion count is the estimate of its text's UTF-16 length; an absent total is prompt plus completion |
| `Accounting.ReportedUsageIgnoresTexts` | gpt-oss-20b/without_load_balancer/vllm-test.js:162-165 | with all three usage fields reported, the texts do not affect the counts |
| `Accounting.UnreportedUsageIsEstimated` | gpt-oss-20b/without_load_balancer/vllm-test.js:162-165 | without a usage object both counts are ceilings of the texts' UTF-16 lengths over 4 and the total is their sum |
| `Accounting.EmojiCompletionEstimate` | gpt-oss-20b/without_load_balancer/vllm-test.js:164 | an unreported completion of four emoji (eight UTF-16 code units) is estimated at two tokens |
| `Accounting.Throughput` | gpt-oss-20b/without_load_balancer/vllm-test.js:167-168 | tps is 0 for a non-positive duration; otherwise tps times the duration in seconds is the completion count; never negative for a non-negative count |
| `Accounting.TimeToFirstToken` | gpt-oss-20b/without_load_balancer/vllm-test.js:178 | the approximation lies between 0 and the full duration |
| `JsString.Utf16Length` | gpt-oss-20b/without_load_balancer/vllm-test.js:135 | a string's `.length` lies between its character count and twice that, and equals the character count iff every character is in the Basic Multilingual Plane |
| `JsString.SurrogatePairsCountTwice` | gpt-oss-20b/without_load_balancer/vllm-test.js:164 | four emoji are four characters but eight UTF-16 code units |
| `Metrics.MetricSink.Add` | gpt-oss-20b/without_load_balancer/vllm-test.js:172-187 | adding to a Trend or Rate appends exactly one sample and changes nothing else |
| `VirtualUser.LengthTag` | gpt-oss-20b/without_load_balancer/vllm-test.js:135 | tag short iff length < 100, medium iff 100 <= length < 200, long iff length >= 200 |
| `VirtualUser.ShippedLengthTags` | gpt-oss-20b/without_load_balancer/vllm-test.js:61-73 | no shipped prompt has prompt_length tag short, and the last four (201 characters or more) are tagged long |
| `VirtualUser.TagAtLeastCharacters` | gpt-oss-20b/without_load_balancer/vllm-test.js:135 | a text of at least 100 characters is never tagged short, one of at least 200 always long |
| `VirtualUser.RunChecks` | gpt-oss-20b/without_load_balancer/vllm-test.js:145-155 | has content iff status 200 with a parsed, non-empty text; fast enough iff under 60 s or the prompt is long; has content implies status 200 and no 5xx |
| `VirtualUser.SuccessSamples` | gpt-oss-20b/without_load_balancer/vllm-test.js:172-179 | six samples, to the five Trends in script order and then errors = 0, all tagged with the category |
| `VirtualUser.ThinkTimeBase` | gpt-oss-20b/without_load_balancer/vllm-test.js:193 | base 1 iff short, 2 iff medium, 3 for every other label |
| `VirtualUser.ShippedThinkTimeByDraw` | gpt-oss-20b/without_load_balancer/vllm-test.js:193 | over the shipped catalog the think-time base is 1 iff the draw is below 55, 2 iff it is in [55, 90), 3 iff it is 90 or more |
| `VirtualUser.IterationSamples` | gpt-oss-20b/without_load_balancer/vllm-test.js:157-190 | an iteration records at least one sample, the last one is `errors`, and every sample is tagged with the prompt's category |
| `VirtualUser.ChecksPassIffSucceeds` | gpt-oss-20b/without_load_balancer/vllm-test.js:145-157 | `AllPass` of `RunChecks` (k6 `check`'s conjunction) holds iff the status is 200, the body parses with non-empty text and the time is under 60 s or the prompt is long |
| `VirtualUser.OneErrorSample` | gpt-oss-20b/without_load_balancer/vllm-test.js:157-190 | every iteration records exactly one `errors` sample |
| `VirtualUser.ErrorValueIff` | gpt-oss-20b/without_load_balancer/vllm-test.js:145-187 | the `errors` sample is 0 iff the iteration succeeds and 1 iff it does not |
| `VirtualUser.SuccessPathSamples` | gpt-oss-20b/without_load_balancer/vllm-test.js:157-179 | on success one sample each goes to tokens_per_second, total_tokens, prompt_tokens, completion_tokens and time_to_first_token (duration × 0.12), then errors = 0, all with the category tag |
| `VirtualUser.FailurePathSamples` | gpt-oss-20b/without_load_balancer/vllm-test.js:186-190 | on failure the only sample is errors = 1 and no Trend receives a value |
| `VirtualUser.SlowResponseIsError` | gpt-oss-20b/without_load_balancer/vllm-test.js:153 | a good 200 that takes 60 s or more for a prompt that is not long counts as an error |
| `VirtualUser.HelloWorldExample` | gpt-oss-20b/without_load_balancer/vllm-test.js:160-179 | for any prompt, "hello world" with usage 5/2/7 in 1000 ms records completion 2, total 7, prompt 5, 2 tokens/s and 120 ms to first token, all tagged with its category |
| `VirtualUser.ErrorSamplesCountIterations` | gpt-oss-20b/without_load_balancer/vllm-test.js:179-187 | each iteration raises the sink's count of `errors` samples by exactly one |
| `VirtualUser.Iteration` | gpt-oss-20b/without_load_balancer/vllm-test.js:94-195 | the default function picks the prompt the selection rule gives, posts as the retry rule says with budget 2, appends exactly that iteration's samples to the sink, and returns the request tags (length bucket of the UTF-16 length) and think-time base |

## Left out

- `options` (scenario, 250 constant VUs for 15 minutes, thresholds and system tags): k6 evaluates this configuration itself. The script computes no percentile or threshold.
- Concurrency of the virtual users: the k6 scheduler provides it. The model covers one iteration against a shared sink.
- The HTTP transport: `http.post`, `http.get`, timeouts and the payload that `JSON.stringify` builds. The server is a scripted sequence of responses.
- `JSON.parse`: modelled only by its result. A `choices[0].text` that is missing stands as "".
- The catch branch of the success path: once the has-content check has parsed the body with non-empty text, parsing it again cannot fail under this model of `JSON.parse`, so that branch is unreachable and is not modelled.
- `Math.random` and the sleeps: the retry back-off of 0.5–1 s and the 0–2 s think-time jitter are nondeterministic timing. Only the think-time base is modelled.
- k6's built-in metrics: `check` itself feeds the `checks` metric, and `http_req_*` carries the request tags. Only the custom Trends and Rate are modelled; the request tags are returned by `Iteration`.
- `Date.now` start and end timestamps: they feed nothing.
- `console.log` output, and `setup`/`teardown`, which are a readiness probe and log lines.
- ShippedLengthTags: does not prove that the first shipped prompt is tagged medium (its 115 characters are all ASCII, so 115 code units), only that it is not tagged short; the verifier cannot check every character of a long string literal within the resource limit.
- JavaScript number semantics: floating point and non-integer usage fields are not modelled. Counts are integers and division is exact.
