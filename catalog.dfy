/**
 * The workload catalog of the load-test script and its weighted random pick.
 *
 * Each prompt carries a relative weight; a draw `r` in [0, total weight) is walked
 * down the catalog, subtracting weights, and the first prompt whose weight exceeds
 * what is left of `r` is chosen. Equivalently, prompt i is chosen exactly when
 * r lies in [w0+...+w(i-1), w0+...+wi), an interval as wide as its weight.
 */
module Catalog {

  /** One request template: prompt text, max_tokens, category label and weight. */
  datatype Prompt = Prompt(text: string, maxTokens: nat, category: string, weight: real)

  /** The five prompts the script ships with (target mix short 55, medium 35, long 10). */
  const ShippedPrompts: seq<Prompt> :=
    [ShortPythonJs, ShortJapanTrip, MediumMachineLearning,
     MediumInvesting, LongMarketingPlan]

  const ShortPythonJs: Prompt := Prompt(ShortPythonJsText, 500, "short", 30.0)
  const ShortPythonJsText: string :=
    "What are the primary differences between Python and JavaScript, and for what purposes is each language best suited?"

  const ShortJapanTrip: Prompt := Prompt(ShortJapanTripText, 500, "short", 25.0)
  const ShortJapanTripText: string :=
    "I am planning a trip to Japan and need help with transportation. What is the best way to get around cities like Tokyo and Kyoto, and are there any rail passes I should consider for travel between them?"

  const MediumMachineLearning: Prompt := Prompt(MediumMachineLearningText, 500, "medium", 20.0)
  const MediumMachineLearningText: string :=
    "Can you explain the concept of machine learning to someone with a non-technical background? Please use a simple analogy to describe how an algorithm learns, and provide a few real-world examples of where machine learning is used in everyday life, such as in streaming services or social media feeds."

  const MediumInvesting: Prompt := Prompt(MediumInvestingText, 500, "medium", 15.0)
  const MediumInvestingText: string :=
    "I am a new investor trying to decide between a growth stock and a value stock. I have read a lot of conflicting information online. Could you provide a clear and comprehensive comparison of these two investment strategies? Please cover their core principles, typical company characteristics for each, and the types of market conditions where each might perform better. Also, give a specific example of a well-known company that would be considered a growth stock and one that would be considered a value stock."

  const LongMarketingPlan: Prompt := Prompt(LongMarketingPlanText, 500, "long", 10.0)
  const LongMarketingPlanText: string :=
    "My company is a small business that sells custom-made furniture. We have been operating for five years and have a loyal customer base, but we are struggling to expand our reach beyond our local community. We have a small marketing budget and primarily rely on word-of-mouth. I am looking for a detailed, strategic marketing plan that focuses on digital channels. Could you outline a plan that includes social media marketing, email campaigns, and content marketing? For each channel, please suggest specific, actionable tactics we can implement. Also, suggest a way to measure the success of each initiative and provide a rough timeline for implementation. The goal is to increase online sales by 25% in the next year."


  /** w0 + ... + w(k-1): the weight of the first k prompts. */
  function PrefixWeight(catalog: seq<Prompt>, k: nat): real
    requires k <= |catalog|
  {
    if k == 0 then 0.0 else PrefixWeight(catalog, k - 1) + catalog[k - 1].weight
  }

  /** The sum of all weights, as the script's left fold over the catalog computes it. */
  function TotalWeight(catalog: seq<Prompt>): real {
    PrefixWeight(catalog, |catalog|)
  }

  /** The weight of the prompts labelled `category` among the first k prompts. */
  function CategoryWeight(catalog: seq<Prompt>, category: string, k: nat): real
    requires k <= |catalog|
  {
    if k == 0 then 0.0
    else CategoryWeight(catalog, category, k - 1)
         + (if catalog[k - 1].category == category then catalog[k - 1].weight else 0.0)
  }

  predicate NonNegativeWeights(catalog: seq<Prompt>) {
    forall i :: 0 <= i < |catalog| ==> catalog[i].weight >= 0.0
  }

  /** The draw `r` falls below the prefix sum that ends with prompt i. */
  predicate Covers(catalog: seq<Prompt>, r: real, i: nat) {
    i < |catalog| && r < PrefixWeight(catalog, i + 1)
  }

  /** Prompt i is the first one whose prefix sum the draw falls below. */
  predicate IsFirstCover(catalog: seq<Prompt>, r: real, i: nat) {
    Covers(catalog, r, i) && forall j :: 0 < j <= i ==> PrefixWeight(catalog, j) <= r
  }

  /**
   * `p` is what the pick returns for draw `r`: the first covering prompt, or
   * the FIRST prompt of the catalog when no prompt covers the draw.
   */
  predicate SelectedBy(catalog: seq<Prompt>, r: real, p: Prompt) {
    && |catalog| > 0
    && (forall i :: 0 <= i < |catalog| && IsFirstCover(catalog, r, i) ==> p == catalog[i])
    && ((forall i :: 0 <= i < |catalog| ==> !Covers(catalog, r, i)) ==> p == catalog[0])
  }

  /** getRandomPrompt, with the random draw `Math.random() * totalWeight` passed in as `r0`. */
  method GetRandomPrompt(catalog: seq<Prompt>, r0: real) returns (p: Prompt)
    requires |catalog| > 0
    ensures SelectedBy(catalog, r0, p)
  {
    var r := r0;
    for k := 0 to |catalog|
      invariant r == r0 - PrefixWeight(catalog, k)
      invariant forall j :: 0 < j <= k ==> PrefixWeight(catalog, j) <= r0
    {
      var q := catalog[k];
      if r < q.weight {
        assert IsFirstCover(catalog, r0, k);
        return q;
      }
      r := r - q.weight;
    }
    return catalog[0];
  }

  lemma {:induction false} PrefixMonotone(catalog: seq<Prompt>, i: nat, j: nat)
    requires NonNegativeWeights(catalog)
    requires i <= j <= |catalog|
    ensures PrefixWeight(catalog, i) <= PrefixWeight(catalog, j)
    decreases j - i
  {
    if i < j {
      PrefixMonotone(catalog, i, j - 1);
    }
  }

  /** With non-negative weights the total is the largest prefix sum. */
  lemma PrefixBelowTotal(catalog: seq<Prompt>)
    requires NonNegativeWeights(catalog)
    ensures forall k :: 0 <= k <= |catalog| ==> 0.0 <= PrefixWeight(catalog, k) <= TotalWeight(catalog)
  {
    forall k | 0 <= k <= |catalog|
      ensures 0.0 <= PrefixWeight(catalog, k) <= TotalWeight(catalog)
    {
      PrefixMonotone(catalog, 0, k);
      PrefixMonotone(catalog, k, |catalog|);
    }
  }

  /**
   * With non-negative weights and a non-negative draw, prompt i is chosen exactly
   * when the draw lies in [PrefixWeight(i), PrefixWeight(i) + weight(i)):
   * an interval whose width is the prompt's weight.
   */
  lemma SelectionInterval(catalog: seq<Prompt>, r: real, i: nat)
    requires NonNegativeWeights(catalog) && 0.0 <= r && i < |catalog|
    ensures IsFirstCover(catalog, r, i)
        <==> PrefixWeight(catalog, i) <= r < PrefixWeight(catalog, i) + catalog[i].weight
  {
    if PrefixWeight(catalog, i) <= r < PrefixWeight(catalog, i) + catalog[i].weight {
      forall j | 0 < j <= i ensures PrefixWeight(catalog, j) <= r {
        PrefixMonotone(catalog, j, i);
      }
    }
  }

  /** Every draw in [0, total weight) is covered by some prompt: the fallback is never taken. */
  lemma DrawIsCovered(catalog: seq<Prompt>, r: real)
    requires 0.0 <= r < TotalWeight(catalog)
    ensures exists i :: IsFirstCover(catalog, r, i)
  {
    FirstCoverFrom(catalog, r, 0);
  }

  lemma {:induction false} FirstCoverFrom(catalog: seq<Prompt>, r: real, k: nat)
    requires k < |catalog| && r < TotalWeight(catalog)
    requires forall j :: 0 < j <= k ==> PrefixWeight(catalog, j) <= r
    ensures exists i :: IsFirstCover(catalog, r, i)
    decreases |catalog| - k
  {
    if r < PrefixWeight(catalog, k + 1) {
      assert IsFirstCover(catalog, r, k);
    } else {
      FirstCoverFrom(catalog, r, k + 1);
    }
  }

  /** A draw in [0, total weight) picks its first covering prompt. */
  lemma PickedIndex(catalog: seq<Prompt>, r: real, p: Prompt) returns (i: nat)
    requires 0.0 <= r < TotalWeight(catalog)
    requires SelectedBy(catalog, r, p)
    ensures IsFirstCover(catalog, r, i) && p == catalog[i]
  {
    DrawIsCovered(catalog, r);
    i :| IsFirstCover(catalog, r, i);
  }

  /** A draw at or beyond the total weight is covered by no prompt, so the pick is prompts[0]. */
  lemma FallbackIsFirst(catalog: seq<Prompt>, r: real, p: Prompt)
    requires NonNegativeWeights(catalog) && TotalWeight(catalog) <= r
    requires SelectedBy(catalog, r, p)
    ensures p == catalog[0]
  {
    forall i | 0 <= i < |catalog| ensures !Covers(catalog, r, i) {
      PrefixMonotone(catalog, i + 1, |catalog|);
    }
  }

  /** The shipped weights are non-negative and sum to 100. */
  lemma ShippedTotal()
    ensures NonNegativeWeights(ShippedPrompts)
    ensures PrefixWeight(ShippedPrompts, 1) == 30.0
    ensures PrefixWeight(ShippedPrompts, 2) == 55.0
    ensures PrefixWeight(ShippedPrompts, 3) == 75.0
    ensures PrefixWeight(ShippedPrompts, 4) == 90.0
    ensures TotalWeight(ShippedPrompts) == 100.0
  {
  }

  /** The short prompts of the shipped catalog weigh 55 in all. */
  lemma ShippedShortWeight()
    ensures CategoryWeight(ShippedPrompts, "short", 5) == 55.0
  {
    var s := ShippedPrompts;
    assert CategoryWeight(s, "short", 1) == 30.0;
    assert CategoryWeight(s, "short", 2) == 55.0;
    assert CategoryWeight(s, "short", 3) == 55.0;
    assert CategoryWeight(s, "short", 4) == 55.0;
  }

  /** The medium prompts of the shipped catalog weigh 35 in all. */
  lemma ShippedMediumWeight()
    ensures CategoryWeight(ShippedPrompts, "medium", 5) == 35.0
  {
    var s := ShippedPrompts;
    assert CategoryWeight(s, "medium", 1) == 0.0;
    assert CategoryWeight(s, "medium", 2) == 0.0;
    assert CategoryWeight(s, "medium", 3) == 20.0;
    assert CategoryWeight(s, "medium", 4) == 35.0;
  }

  /** The long prompts of the shipped catalog weigh 10 in all. */
  lemma ShippedLongWeight()
    ensures CategoryWeight(ShippedPrompts, "long", 5) == 10.0
  {
    var s := ShippedPrompts;
    assert CategoryWeight(s, "long", 1) == 0.0;
    assert CategoryWeight(s, "long", 2) == 0.0;
    assert CategoryWeight(s, "long", 3) == 0.0;
    assert CategoryWeight(s, "long", 4) == 0.0;
  }

  /**
   * Over the shipped catalog, a draw in [0, 100) picks a short prompt exactly when it
   * is below 55, a medium one exactly when it is in [55, 90), a long one from 90 on.
   */
  lemma ShippedCategoryByDraw(r: real, p: Prompt)
    requires 0.0 <= r < 100.0
    requires SelectedBy(ShippedPrompts, r, p)
    ensures p.category == "short" <==> r < 55.0
    ensures p.category == "medium" <==> 55.0 <= r < 90.0
    ensures p.category == "long" <==> 90.0 <= r
  {
    var s := ShippedPrompts;
    ShippedTotal();
    var i := PickedIndex(s, r, p);
    SelectionInterval(s, r, i);
    ShippedCategories();
  }

  /** The shipped prompt texts are 115, 201, 299, 510 and 718 characters long. */
  lemma ShippedTextLengths()
    ensures |ShortPythonJsText| == 115
    ensures |ShortJapanTripText| == 201
    ensures |MediumMachineLearningText| == 299
    ensures |MediumInvestingText| == 510
    ensures |LongMarketingPlanText| == 718
  {
  }

  /** The category labels of the shipped prompts, in catalog order. */
  lemma ShippedCategories()
    ensures ShippedPrompts[0].category == "short" && ShippedPrompts[1].category == "short"
    ensures ShippedPrompts[2].category == "medium" && ShippedPrompts[3].category == "medium"
    ensures ShippedPrompts[4].category == "long"
    ensures "short" != "medium" && "short" != "long" && "medium" != "long"
  {
  }
}
