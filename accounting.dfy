/**
 * Token accounting of one successful completion: server-reported usage where the
 * field is present (a reported 0 included), else an estimate of one token per four
 * characters; and the throughput and first-token latency derived from the duration.
 */
module Accounting {
  import opened Wrappers
  import opened Http
  import opened JsString

  /** Characters per estimated token. */
  const CharsPerToken: nat := 4

  /** The share of the total duration taken as time to first token (non-streaming approximation). */
  const FirstTokenShare: real := 0.12

  /** Math.ceil(units / 4): the fewest tokens of four code units that hold `chars` code units. */
  function EstimateTokens(chars: nat): (t: nat)
    ensures CharsPerToken * t >= chars
    ensures t == 0 || CharsPerToken * (t - 1) < chars
  {
    (chars + CharsPerToken - 1) / CharsPerToken
  }

  datatype TokenCounts = TokenCounts(prompt: int, completion: int, total: int)

  /** pTok, cTok and tTok of the script, from the prompt text, the completion text and the usage. */
  function DeriveTokens(promptText: string, completionText: string, usage: Usage): (c: TokenCounts)
    ensures usage.promptTokens.Some? ==> c.prompt == usage.promptTokens.value
    ensures usage.promptTokens.None? ==> c.prompt == EstimateTokens(Utf16Length(promptText))
    ensures usage.completionTokens.Some? ==> c.completion == usage.completionTokens.value
    ensures usage.completionTokens.None? ==> c.completion == EstimateTokens(Utf16Length(completionText))
    ensures usage.totalTokens.Some? ==> c.total == usage.totalTokens.value
    ensures usage.totalTokens.None? ==> c.total == c.prompt + c.completion
  {
    var p := usage.promptTokens.GetOr(EstimateTokens(Utf16Length(promptText)));
    var k := usage.completionTokens.GetOr(EstimateTokens(Utf16Length(completionText)));
    TokenCounts(p, k, usage.totalTokens.GetOr(p + k))
  }

  /** Fully reported usage is taken as is: the texts have no say. */
  lemma ReportedUsageIgnoresTexts(p1: string, t1: string, p2: string, t2: string, usage: Usage)
    requires usage.promptTokens.Some? && usage.completionTokens.Some? && usage.totalTokens.Some?
    ensures DeriveTokens(p1, t1, usage) == DeriveTokens(p2, t2, usage)
  {
  }

  /**
   * Without a usage object every count is the ceiling of the text's UTF-16 length over 4,
   * and the total is their sum.
   */
  lemma UnreportedUsageIsEstimated(promptText: string, completionText: string)
    ensures var c := DeriveTokens(promptText, completionText, NoUsage);
      && CharsPerToken * c.prompt >= Utf16Length(promptText)
      && CharsPerToken * (c.prompt - 1) < Utf16Length(promptText)
      && CharsPerToken * c.completion >= Utf16Length(completionText)
      && CharsPerToken * (c.completion - 1) < Utf16Length(completionText)
      && c.total == c.prompt + c.completion
  {
  }

  /** An estimated completion count follows the UTF-16 length: four emoji make two tokens. */
  lemma EmojiCompletionEstimate(promptText: string)
    ensures DeriveTokens(promptText, "\U{1F600}\U{1F600}\U{1F600}\U{1F600}", NoUsage).completion == 2
  {
    SurrogatePairsCountTwice();
  }

  /** tps: completion tokens per second of duration, and 0 when the duration is not positive. */
  function Throughput(completionTokens: int, durationMs: real): (tps: real)
    ensures durationMs <= 0.0 ==> tps == 0.0
    ensures durationMs > 0.0 ==> tps * (durationMs / 1000.0) == completionTokens as real
    ensures completionTokens >= 0 ==> tps >= 0.0
  {
    var durSec := durationMs / 1000.0;
    if durSec > 0.0 then completionTokens as real / durSec else 0.0
  }

  /** The approximate time to first token, in milliseconds. */
  function TimeToFirstToken(durationMs: real): (ms: real)
    ensures 0.0 <= durationMs ==> 0.0 <= ms <= durationMs
  {
    durationMs * FirstTokenShare
  }
}
