/** What the news and the social-media sentiment calculators share: the "1.5x dominance" rule
    that turns an item's (positive, negative) pair into one score, the three categories, and
    the strict-majority rule of the overall diagnosis. Each calculator keeps its own
    thresholds, weights and confidence. */
module SentimentScoring {
  import opened Wrappers
  import opened Numeric

  /** The detailed score of one item; each part may be missing. */
  datatype SentimentScore = SentimentScore(positive: Option<real>, negative: Option<real>, neutral: Option<real>)

  /** A missing part counts as 0. */
  function OrZero(x: Option<real>): real
  {
    if x.Some? then x.value else 0.0
  }

  /** One item's score before clamping: a side that is more than 1.5 times the other
      dominates and maps into its half of [0, 1]; otherwise the difference is rescaled. */
  function Dominance(positive: real, negative: real): real
  {
    if positive > negative * 1.5 then 0.5 + positive * 0.5
    else if negative > positive * 1.5 then 0.5 - negative * 0.5
    else (positive - negative + 1.0) / 2.0
  }

  /** Which side of the neutral 0.5 the score falls on is decided by which side is larger. */
  lemma DominanceSign(positive: real, negative: real)
    requires positive >= 0.0 && negative >= 0.0
    ensures Dominance(positive, negative) > 0.5 <==> positive > negative
    ensures Dominance(positive, negative) == 0.5 <==> positive == negative
    ensures Dominance(positive, negative) < 0.5 <==> positive < negative
  {
  }

  /** Scores in [0, 1] give a score in [0, 1], before any clamp. */
  lemma DominanceInUnit(positive: real, negative: real)
    requires 0.0 <= positive <= 1.0 && 0.0 <= negative <= 1.0
    ensures 0.0 <= Dominance(positive, negative) <= 1.0
  {
  }

  /** More positive never lowers the score, although the rule switches branches. */
  lemma DominanceMonotone(p1: real, p2: real, negative: real)
    requires 0.0 <= p1 <= p2 && negative >= 0.0
    ensures Dominance(p1, negative) <= Dominance(p2, negative)
  {
  }

  /** More negative never raises the score. */
  lemma DominanceAntitone(positive: real, n1: real, n2: real)
    requires positive >= 0.0 && 0.0 <= n1 <= n2
    ensures Dominance(positive, n2) <= Dominance(positive, n1)
  {
  }

  /** Example: 0.8 against 0.1 dominates and scores 0.9; 0.3 against 0.25 is balanced and
      scores 0.525. */
  lemma DominanceExamples()
    ensures Dominance(0.8, 0.1) == 0.9
    ensures Dominance(0.3, 0.25) == 0.525
    ensures Dominance(0.0, 0.6) == 0.2
  {
  }

  /** The three sentiment categories. */
  datatype Category = Positive | Neutral | Negative

  /** Categories ordered from most negative to most positive. */
  function CategoryRank(c: Category): nat
  {
    match c
    case Negative => 0
    case Neutral => 1
    case Positive => 2
  }

  /** The categorizer of both calculators, with its two thresholds: at or above
      `positiveFrom` is Positive, at or above `neutralFrom` is Neutral, below is Negative. */
  function Categorize(score: real, positiveFrom: real, neutralFrom: real): (c: Category)
    requires neutralFrom <= positiveFrom
    ensures c == Positive <==> score >= positiveFrom
    ensures c == Neutral <==> neutralFrom <= score < positiveFrom
    ensures c == Negative <==> score < neutralFrom
  {
    if score >= positiveFrom then Positive
    else if score >= neutralFrom then Neutral
    else Negative
  }

  /** A higher score never gets a lower category. */
  lemma CategorizeMonotone(s1: real, s2: real, positiveFrom: real, neutralFrom: real)
    requires neutralFrom <= positiveFrom && s1 <= s2
    ensures CategoryRank(Categorize(s1, positiveFrom, neutralFrom)) <= CategoryRank(Categorize(s2, positiveFrom, neutralFrom))
  {
  }

  /** Number of assets in a category (`sum(1 for s in sentiments if ...)`). */
  function CountOf(categories: seq<Category>, c: Category): (k: nat)
    ensures k <= |categories|
  {
    if |categories| == 0 then 0
    else CountOf(categories[..|categories| - 1], c) + (if categories[|categories| - 1] == c then 1 else 0)
  }

  /** Every asset is counted in exactly one category. */
  lemma {:induction false} CountsAddUp(categories: seq<Category>)
    ensures CountOf(categories, Positive) + CountOf(categories, Neutral) + CountOf(categories, Negative) == |categories|
  {
    if |categories| > 0 {
      CountsAddUp(categories[..|categories| - 1]);
    }
  }

  /** The overall diagnosis with the numbers its message reports. */
  datatype OverallDiagnosis =
    | OverallPositive(positiveCount: nat, totalAssets: nat)
    | OverallNegative(negativeCount: nat, totalAssets: nat)
    | MixedSentiment(positiveCount: nat, negativeCount: nat, neutralCount: nat)

  /** POSITIVE when the positive count beats both others, NEGATIVE likewise, MIXED otherwise. */
  function Diagnose(categories: seq<Category>): (d: OverallDiagnosis)
    ensures d.OverallPositive? <==>
      CountOf(categories, Positive) > CountOf(categories, Negative) &&
      CountOf(categories, Positive) > CountOf(categories, Neutral)
    ensures d.OverallNegative? <==>
      CountOf(categories, Negative) > CountOf(categories, Positive) &&
      CountOf(categories, Negative) > CountOf(categories, Neutral)
    ensures d.OverallPositive? ==> d.positiveCount == CountOf(categories, Positive) && d.totalAssets == |categories|
    ensures d.OverallNegative? ==> d.negativeCount == CountOf(categories, Negative) && d.totalAssets == |categories|
    ensures d.MixedSentiment? ==>
      d.positiveCount == CountOf(categories, Positive) && d.negativeCount == CountOf(categories, Negative) &&
      d.neutralCount == CountOf(categories, Neutral)
  {
    var positive := CountOf(categories, Positive);
    var negative := CountOf(categories, Negative);
    var neutral := CountOf(categories, Neutral);
    if positive > negative && positive > neutral then OverallPositive(positive, |categories|)
    else if negative > positive && negative > neutral then OverallNegative(negative, |categories|)
    else MixedSentiment(positive, negative, neutral)
  }

  /** A positive majority of the assets always reads POSITIVE; no assets at all read MIXED. */
  lemma DiagnoseMajority(categories: seq<Category>)
    ensures 2 * CountOf(categories, Positive) > |categories| ==> Diagnose(categories).OverallPositive?
    ensures 2 * CountOf(categories, Negative) > |categories| ==> Diagnose(categories).OverallNegative?
    ensures |categories| == 0 ==> Diagnose(categories).MixedSentiment?
  {
    CountsAddUp(categories);
  }

  /** A tie for first place between two categories reads MIXED. */
  lemma DiagnoseTie(categories: seq<Category>)
    requires (CountOf(categories, Positive) == CountOf(categories, Negative) && CountOf(categories, Neutral) <= CountOf(categories, Positive)) ||
             (CountOf(categories, Positive) == CountOf(categories, Neutral) && CountOf(categories, Negative) <= CountOf(categories, Positive)) ||
             (CountOf(categories, Negative) == CountOf(categories, Neutral) && CountOf(categories, Positive) <= CountOf(categories, Negative))
    ensures Diagnose(categories).MixedSentiment?
  {
  }
}
