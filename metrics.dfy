/**
 * The custom metrics of the script: five Trends and one Rate, all fed into one
 * append-only sink of (metric name, prompt_category tag, value) samples.
 */
module Metrics {

  const TokensPerSecondTrend := "tokens_per_second"
  const TotalTokensTrend := "total_tokens"
  const PromptTokensTrend := "prompt_tokens"
  const CompletionTokensTrend := "completion_tokens"
  const TimeToFirstTokenTrend := "time_to_first_token"
  /** The Rate metric: 1 for a failed iteration, 0 for a successful one. */
  const ErrorRate := "errors"

  /** One recorded value with its only tag, `prompt_category`. */
  datatype Sample = Sample(metric: string, category: string, value: real)

  /** The number of samples of `metric`. */
  function CountOf(samples: seq<Sample>, metric: string): nat {
    if samples == [] then 0
    else CountOf(samples[..|samples| - 1], metric)
         + (if samples[|samples| - 1].metric == metric then 1 else 0)
  }

  /** Counting distributes over appending. */
  lemma {:induction false} CountOfAppend(a: seq<Sample>, b: seq<Sample>, metric: string)
    ensures CountOf(a + b, metric) == CountOf(a, metric) + CountOf(b, metric)
    decreases |b|
  {
    if b == [] {
      assert a + b == a;
    } else {
      assert (a + b)[..|a + b| - 1] == a + b[..|b| - 1];
      CountOfAppend(a, b[..|b| - 1], metric);
    }
  }

  /** A metric none of whose samples is present counts zero. */
  lemma {:induction false} CountOfAbsent(samples: seq<Sample>, metric: string)
    requires forall i :: 0 <= i < |samples| ==> samples[i].metric != metric
    ensures CountOf(samples, metric) == 0
    decreases |samples|
  {
    if samples != [] {
      CountOfAbsent(samples[..|samples| - 1], metric);
    }
  }

  /** The shared metric store: every Trend.add and Rate.add appends one sample. */
  class MetricSink {
    var samples: seq<Sample>

    constructor ()
      ensures samples == []
    {
      samples := [];
    }

    method Add(metric: string, category: string, value: real)
      modifies this
      ensures samples == old(samples) + [Sample(metric, category, value)]
    {
      samples := samples + [Sample(metric, category, value)];
    }
  }
}
