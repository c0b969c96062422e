/** The news sentiment calculator: articles are grouped by asset, each article is scored by
    the dominance rule with a first positive bias, each asset's mean score gets a second
    positive bias, is scaled by a confidence that grows with the number of articles, and is
    categorized at 0.6 / 0.4. The tool then counts categories into an overall diagnosis. */
module NewsSentiment {
  import opened Wrappers
  import opened Numeric
  import opened Grouping
  import opened SentimentScoring

  /** A news article about an asset; `asset` is "" where the source has no asset. */
  datatype AssetNews = AssetNews(asset: string, headline: string, sentimentScore: Option<SentimentScore>)

  const PositiveFrom: real := 0.6
  const NeutralFrom: real := 0.4
  /** An article without a score counts as this score, with 0.33 for each of its three parts. */
  const MissingScore: real := 0.5
  const MissingPart: real := 0.33

  function NewsAsset(a: AssetNews): string { a.asset }

  /** What one article appends to the four score lists. */
  datatype ArticleReading = ArticleReading(score: real, positive: real, negative: real, neutral: real)

  /** The first positive bias: a score in [0.5, 0.6) gains min(0.08, 0.12 * (positive - negative)). */
  function FirstBias(score: real, positive: real, negative: real): real
  {
    if 0.5 <= score < 0.6 then score + Min(0.08, (positive - negative) * 0.12) else score
  }

  /** An article's score: dominance rule, first bias, then the clamp to [0, 1]. */
  function ArticleScore(positive: real, negative: real): (s: real)
    ensures 0.0 <= s <= 1.0
  {
    Clamp(0.0, 1.0, FirstBias(Dominance(positive, negative), positive, negative))
  }

  function Read(article: AssetNews): ArticleReading
  {
    match article.sentimentScore
    case None => ArticleReading(MissingScore, MissingPart, MissingPart, MissingPart)
    case Some(s) =>
      var positive := OrZero(s.positive);
      var negative := OrZero(s.negative);
      ArticleReading(ArticleScore(positive, negative), positive, negative, OrZero(s.neutral))
  }

  /** The bias never moves an article across the neutral point: with non-negative parts the
      article scores above 0.5 exactly when positive exceeds negative, and 0.5 on a tie. */
  lemma ArticleScoreSign(positive: real, negative: real)
    requires positive >= 0.0 && negative >= 0.0
    ensures ArticleScore(positive, negative) > 0.5 <==> positive > negative
    ensures ArticleScore(positive, negative) == 0.5 <==> positive == negative
  {
    DominanceSign(positive, negative);
  }

  /** The first bias only ever adds, and at most 0.08, when the parts are non-negative. */
  lemma FirstBiasBounds(positive: real, negative: real)
    requires positive >= 0.0 && negative >= 0.0
    ensures Dominance(positive, negative) <= FirstBias(Dominance(positive, negative), positive, negative)
              <= Dominance(positive, negative) + 0.08
  {
    DominanceSign(positive, negative);
  }

  /** Example: 0.3 against 0.25 is balanced, 0.525, and the bias lifts it by 0.006. */
  lemma FirstBiasExample()
    ensures ArticleScore(0.3, 0.25) == 0.531
  {
    assert Dominance(0.3, 0.25) == 0.525;
  }

  /** The four lists built for a group, in article order. */
  function Scores(articles: seq<AssetNews>): (s: seq<real>)
    ensures |s| == |articles|
  {
    if |articles| == 0 then [] else Scores(articles[..|articles| - 1]) + [Read(articles[|articles| - 1]).score]
  }

  function Positives(articles: seq<AssetNews>): (s: seq<real>)
    ensures |s| == |articles|
  {
    if |articles| == 0 then [] else Positives(articles[..|articles| - 1]) + [Read(articles[|articles| - 1]).positive]
  }

  function Negatives(articles: seq<AssetNews>): (s: seq<real>)
    ensures |s| == |articles|
  {
    if |articles| == 0 then [] else Negatives(articles[..|articles| - 1]) + [Read(articles[|articles| - 1]).negative]
  }

  function Neutrals(articles: seq<AssetNews>): (s: seq<real>)
    ensures |s| == |articles|
  {
    if |articles| == 0 then [] else Neutrals(articles[..|articles| - 1]) + [Read(articles[|articles| - 1]).neutral]
  }

  /** Every article score lies in [0, 1]. */
  lemma {:induction false} ScoresInUnit(articles: seq<AssetNews>)
    ensures forall i :: 0 <= i < |articles| ==> 0.0 <= Scores(articles)[i] <= 1.0
  {
    if |articles| > 0 {
      ScoresInUnit(articles[..|articles| - 1]);
    }
  }

  /** The second positive bias on the group mean: in [0.54, 0.6), and only when the mean
      positive part exceeds the mean negative part, add min(0.08, 0.12 * their difference). */
  function SecondBias(mean: real, meanPositive: real, meanNegative: real): real
  {
    if 0.54 <= mean < 0.6 && meanPositive > meanNegative then mean + Min(0.08, (meanPositive - meanNegative) * 0.12)
    else mean
  }

  lemma SecondBiasBounds(mean: real, meanPositive: real, meanNegative: real)
    ensures mean <= SecondBias(mean, meanPositive, meanNegative) <= mean + 0.08
    ensures SecondBias(mean, meanPositive, meanNegative) != mean ==> 0.54 <= mean < 0.6
  {
  }

  /** The confidence for `n` scored articles: n/3 capped at 1, floored at 0.6. */
  function Confidence(n: nat): (c: real)
    ensures 0.6 <= c <= 1.0
    ensures c == 1.0 <==> n >= 3
  {
    Max(Min(n as real / 3.0, 1.0), 0.6)
  }

  /** One asset's entry in the summary dict. */
  datatype NewsSentimentSummary = NewsSentimentSummary(
    asset: string,
    finalSentimentScore: real,
    sentimentCategory: Category,
    totalNews: nat,
    averagePositive: real,
    averageNegative: real,
    averageNeutral: real,
    confidenceLevel: real,
    mostRecentArticle: Option<AssetNews>)

  /** `get_sentiment_category` of the news calculator. */
  function NewsCategory(score: real): Category
  {
    Categorize(score, PositiveFrom, NeutralFrom)
  }

  /** The biased mean scaled by the confidence, clamped to [0, 1]. */
  function Scale(mean: real, confidence: real): real
  {
    Clamp(0.0, 1.0, mean * confidence)
  }

  /** The final score and confidence of a group; the second pair is the branch for a group
      without scores. */
  function FinalAndConfidence(articles: seq<AssetNews>): (real, real)
  {
    if |articles| > 0 then
      var biased := SecondBias(Mean(Scores(articles)), Mean(Positives(articles)), Mean(Negatives(articles)));
      var confidence := Confidence(|Scores(articles)|);
      (Scale(biased, confidence), confidence)
    else (0.5, 0.5)
  }

  /** The summary of one asset's articles. */
  function Summarize(asset: string, articles: seq<AssetNews>): NewsSentimentSummary
  {
    var (final, confidence) := FinalAndConfidence(articles);
    NewsSentimentSummary(
      asset, final, NewsCategory(final), |articles|,
      MeanOrZero(Positives(articles)), MeanOrZero(Negatives(articles)), MeanOrZero(Neutrals(articles)),
      confidence,
      if |articles| > 0 then Some(articles[0]) else None)
  }

  /** A summary's score is in [0, 1] and its category is that of its score; a non-empty group
      has confidence in [0.6, 1], full from three articles on, and its first article as the
      most recent one. */
  lemma SummaryProperties(asset: string, articles: seq<AssetNews>)
    ensures var s := Summarize(asset, articles);
      0.0 <= s.finalSentimentScore <= 1.0 &&
      s.sentimentCategory == NewsCategory(s.finalSentimentScore) &&
      s.totalNews == |articles| && s.asset == asset
    ensures |articles| > 0 ==> 0.6 <= Summarize(asset, articles).confidenceLevel <= 1.0
    ensures |articles| > 0 ==> (Summarize(asset, articles).confidenceLevel == 1.0 <==> |articles| >= 3)
    ensures |articles| > 0 ==> Summarize(asset, articles).mostRecentArticle == Some(articles[0])
  {
  }

  /** The loop over one group's articles, filling the four score lists. */
  method ScoreArticles(articles: seq<AssetNews>)
    returns (sentimentScores: seq<real>, positiveScores: seq<real>, negativeScores: seq<real>, neutralScores: seq<real>)
    ensures sentimentScores == Scores(articles)
    ensures positiveScores == Positives(articles)
    ensures negativeScores == Negatives(articles)
    ensures neutralScores == Neutrals(articles)
  {
    sentimentScores, positiveScores, negativeScores, neutralScores := [], [], [], [];
    for i := 0 to |articles|
      invariant sentimentScores == Scores(articles[..i])
      invariant positiveScores == Positives(articles[..i])
      invariant negativeScores == Negatives(articles[..i])
      invariant neutralScores == Neutrals(articles[..i])
    {
      assert articles[..i + 1][..i] == articles[..i];
      var article := articles[i];
      if article.sentimentScore.Some? {
        var sentiment := article.sentimentScore.value;
        var positive := OrZero(sentiment.positive);
        var negative := OrZero(sentiment.negative);
        var neutral := OrZero(sentiment.neutral);
        var normalized := Dominance(positive, negative);
        if 0.5 <= normalized < 0.6 {
          normalized := normalized + Min(0.08, (positive - negative) * 0.12);
        }
        normalized := Clamp(0.0, 1.0, normalized);
        sentimentScores := sentimentScores + [normalized];
        positiveScores := positiveScores + [positive];
        negativeScores := negativeScores + [negative];
        neutralScores := neutralScores + [neutral];
      } else {
        sentimentScores := sentimentScores + [MissingScore];
        positiveScores := positiveScores + [MissingPart];
        negativeScores := negativeScores + [MissingPart];
        neutralScores := neutralScores + [MissingPart];
      }
    }
    assert articles[..|articles|] == articles;
  }

  /** One group's summary: the scored lists, then the bias, confidence and clamp steps. */
  method SummarizeGroup(asset: string, articles: seq<AssetNews>) returns (summary: NewsSentimentSummary)
    ensures summary == Summarize(asset, articles)
  {
    var sentimentScores, positiveScores, negativeScores, neutralScores := ScoreArticles(articles);
    var final: real;
    var confidence: real;
    if |sentimentScores| > 0 {
      final := Mean(sentimentScores);
      if 0.54 <= final < 0.6 {
        var overallPositive := MeanOrZero(positiveScores);
        var overallNegative := MeanOrZero(negativeScores);
        if overallPositive > overallNegative {
          final := final + Min(0.08, (overallPositive - overallNegative) * 0.12);
        }
      }
      confidence := Min(|sentimentScores| as real / 3.0, 1.0);
      confidence := Max(confidence, 0.6);
      assert confidence == Confidence(|Scores(articles)|);
      assert final == SecondBias(Mean(Scores(articles)), Mean(Positives(articles)), Mean(Negatives(articles)));
      final := Scale(final, confidence);
    } else {
      final := 0.5;
      confidence := 0.5;
    }
    assert (final, confidence) == FinalAndConfidence(articles);
    summary := NewsSentimentSummary(
      asset, final, NewsCategory(final), |articles|,
      MeanOrZero(positiveScores), MeanOrZero(negativeScores), MeanOrZero(neutralScores),
      confidence,
      if |articles| > 0 then Some(articles[0]) else None);
  }

  /** The summaries of the given keys' groups, in key order. */
  function SummariesOf(list: seq<AssetNews>, keys: seq<string>): (r: seq<NewsSentimentSummary>)
    ensures |r| == |keys|
  {
    if |keys| == 0 then []
    else SummariesOf(list, keys[..|keys| - 1]) + [Summarize(keys[|keys| - 1], Members(list, NewsAsset, keys[|keys| - 1]))]
  }

  /** `calculate_aggregated_sentiment`: the summary dict, as its values in key order. */
  function AggregatedSentiment(list: seq<AssetNews>): seq<NewsSentimentSummary>
  {
    SummariesOf(list, FirstSeen(list, NewsAsset))
  }

  method CalculateAggregatedSentiment(list: seq<AssetNews>) returns (summaries: seq<NewsSentimentSummary>)
    ensures summaries == AggregatedSentiment(list)
  {
    var keys, groups := GroupByAsset(list, NewsAsset);
    summaries := [];
    for i := 0 to |keys|
      invariant summaries == SummariesOf(list, keys[..i])
    {
      var summary := SummarizeGroup(keys[i], groups[keys[i]]);
      SummariesOfSnoc(list, keys, i);
      summaries := summaries + [summary];
    }
    assert keys[..|keys|] == keys;
  }

  lemma SummariesOfSnoc(list: seq<AssetNews>, keys: seq<string>, i: nat)
    requires i < |keys|
    ensures SummariesOf(list, keys[..i + 1]) == SummariesOf(list, keys[..i]) + [Summarize(keys[i], Members(list, NewsAsset, keys[i]))]
  {
    assert keys[..i + 1][..i] == keys[..i];
  }

  /** The i-th summary is that of the i-th key's group. */
  lemma {:induction false} SummariesOfAt(list: seq<AssetNews>, keys: seq<string>, i: nat)
    requires i < |keys|
    ensures SummariesOf(list, keys)[i] == Summarize(keys[i], Members(list, NewsAsset, keys[i]))
  {
    if i < |keys| - 1 {
      SummariesOfAt(list, keys[..|keys| - 1], i);
    }
  }

  /** One entry per distinct non-empty asset, in first-seen order; each group has at least
      one article, so the no-data branch (0.5 with confidence 0.5) is never taken and every
      confidence is at least 0.6. */
  lemma AggregatedSentimentShape(list: seq<AssetNews>)
    ensures |AggregatedSentiment(list)| == |FirstSeen(list, NewsAsset)|
    ensures forall i :: 0 <= i < |AggregatedSentiment(list)| ==>
      AggregatedSentiment(list)[i].asset == FirstSeen(list, NewsAsset)[i] &&
      AggregatedSentiment(list)[i].totalNews > 0 &&
      0.6 <= AggregatedSentiment(list)[i].confidenceLevel <= 1.0
  {
    var keys := FirstSeen(list, NewsAsset);
    forall i | 0 <= i < |keys|
      ensures AggregatedSentiment(list)[i].asset == keys[i]
      ensures AggregatedSentiment(list)[i].totalNews > 0
      ensures 0.6 <= AggregatedSentiment(list)[i].confidenceLevel <= 1.0
    {
      SummariesOfAt(list, keys, i);
      GroupsNonEmpty(list, NewsAsset, keys[i]);
      SummaryProperties(keys[i], Members(list, NewsAsset, keys[i]));
    }
  }

  /** Sum of `total_news` over a list of summaries. */
  function TotalNews(summaries: seq<NewsSentimentSummary>): nat
  {
    if |summaries| == 0 then 0 else TotalNews(summaries[..|summaries| - 1]) + summaries[|summaries| - 1].totalNews
  }

  /** `total_news` counts every article of the group, scored or not: over all assets the
      counts add up to the number of articles that name an asset. */
  lemma TotalNewsCountsEveryArticle(list: seq<AssetNews>)
    ensures TotalNews(AggregatedSentiment(list)) == Carried(list, NewsAsset)
  {
    TotalNewsOfKeys(list, FirstSeen(list, NewsAsset));
    GroupSizesAddUp(list, NewsAsset);
  }

  lemma {:induction false} TotalNewsOfKeys(list: seq<AssetNews>, keys: seq<string>)
    ensures TotalNews(SummariesOf(list, keys)) == TotalSize(list, NewsAsset, keys)
  {
    if |keys| > 0 {
      TotalNewsOfKeys(list, keys[..|keys| - 1]);
      var r := SummariesOf(list, keys);
      assert r[..|r| - 1] == SummariesOf(list, keys[..|keys| - 1]);
    }
  }

  /** A single strongly positive article (0.8 against 0.1) scores 0.9, but its confidence is
      only 0.6, so the asset ends at 0.54 and reads Neutral; three such articles read
      Positive at 0.9. */
  lemma ConfidenceScenario(a: AssetNews)
    requires a.asset == "BTC" && a.sentimentScore == Some(SentimentScore(Some(0.8), Some(0.1), Some(0.1)))
    ensures Summarize("BTC", [a]).finalSentimentScore == 0.54
    ensures Summarize("BTC", [a]).sentimentCategory == Neutral
    ensures Summarize("BTC", [a, a, a]).finalSentimentScore == 0.9
    ensures Summarize("BTC", [a, a, a]).sentimentCategory == Positive
  {
    ScenarioMeans(a);
    var one, three := [a], [a, a, a];
    assert SecondBias(Mean(Scores(one)), Mean(Positives(one)), Mean(Negatives(one))) == 0.9;
    assert Confidence(|Scores(one)|) == 0.6;
    assert FinalAndConfidence(one).0 == 0.54;
    assert SecondBias(Mean(Scores(three)), Mean(Positives(three)), Mean(Negatives(three))) == 0.9;
    assert Confidence(|Scores(three)|) == 1.0;
    assert FinalAndConfidence(three).0 == 0.9;
  }

  /** The scores of the scenario: one such article, or three, average 0.9. */
  lemma ScenarioMeans(a: AssetNews)
    requires a.sentimentScore == Some(SentimentScore(Some(0.8), Some(0.1), Some(0.1)))
    ensures Mean(Scores([a])) == 0.9 && Mean(Scores([a, a, a])) == 0.9
  {
    assert Dominance(0.8, 0.1) == 0.9;
    assert Read(a).score == 0.9;
    var one := [a];
    assert one[..0] == [];
    assert Scores(one) == [0.9];
    assert Sum([0.9]) == 0.9 by { assert [0.9][..0] == []; }
    var three := [a, a, a];
    assert three[..2] == [a, a] && [a, a][..1] == [a];
    assert Scores(three) == [0.9, 0.9, 0.9];
    SumConstant([0.9, 0.9, 0.9], 0.9);
  }

  /** The categories of the summaries, in order. */
  function Categories(summaries: seq<NewsSentimentSummary>): (cs: seq<Category>)
    ensures |cs| == |summaries|
    ensures forall i :: 0 <= i < |summaries| ==> cs[i] == summaries[i].sentimentCategory
  {
    if |summaries| == 0 then [] else Categories(summaries[..|summaries| - 1]) + [summaries[|summaries| - 1].sentimentCategory]
  }

  /** The per-asset record the tool stores in the report (the summary without its article). */
  datatype AssetNewsSentiment = AssetNewsSentiment(
    asset: string,
    finalSentimentScore: real,
    sentimentCategory: Category,
    totalNews: nat,
    averagePositive: real,
    averageNegative: real,
    averageNeutral: real,
    confidenceLevel: real)

  function ToRecord(s: NewsSentimentSummary): AssetNewsSentiment
  {
    AssetNewsSentiment(s.asset, s.finalSentimentScore, s.sentimentCategory, s.totalNews,
                       s.averagePositive, s.averageNegative, s.averageNeutral, s.confidenceLevel)
  }

  function ToRecords(summaries: seq<NewsSentimentSummary>): (r: seq<AssetNewsSentiment>)
    ensures |r| == |summaries|
    ensures forall i :: 0 <= i < |summaries| ==> r[i] == ToRecord(summaries[i])
  {
    if |summaries| == 0 then [] else ToRecords(summaries[..|summaries| - 1]) + [ToRecord(summaries[|summaries| - 1])]
  }

  /** Which agent the tool runs for; it picks the progress message. */
  datatype NewsAgent = CryptoNewsAgent | MarketNewsAgent

  function ProgressMessage(agent: NewsAgent): string
  {
    match agent
    case CryptoNewsAgent => "[Tool] Calculating crypto news sentiment analysis."
    case MarketNewsAgent => "[Tool] Calculating news sentiment analysis."
  }

  /** The steps of the news agent's workflow. */
  datatype NewsStep = NewsStart | PortfolioAllocationNode | FetchMarketNewsNode | NewsSentimentCalcNode
                    | NewsSentimentSummaryNode | NewsEnd

  /** The report object of a news agent state. */
  class NewsReport {
    var assetNews: seq<AssetNews>
    var assetNewsSentiments: seq<AssetNewsSentiment>
    var overallNewsDiagnosis: Option<OverallDiagnosis>

    constructor (news: seq<AssetNews>)
      ensures assetNews == news && assetNewsSentiments == [] && overallNewsDiagnosis == None
    {
      assetNews := news;
      assetNewsSentiments := [];
      overallNewsDiagnosis := None;
    }

    /** The two report fields the tool fills: the per-asset records and the diagnosis. */
    method StoreSentiments()
      modifies this
      ensures assetNews == old(assetNews)
      ensures assetNewsSentiments == ToRecords(AggregatedSentiment(assetNews))
      ensures overallNewsDiagnosis == Some(Diagnose(Categories(AggregatedSentiment(assetNews))))
    {
      var summaries := CalculateAggregatedSentiment(assetNews);
      assetNewsSentiments := ToRecords(summaries);
      overallNewsDiagnosis := Some(Diagnose(Categories(summaries)));
    }
  }

  /** The `updates` list of a state, an object that a shallow copy shares. */
  class UpdateLog {
    var entries: seq<string>

    constructor ()
      ensures entries == []
    {
      entries := [];
    }

    /** `state["updates"].append(message)`. */
    method Append(message: string)
      modifies this
      ensures entries == old(entries) + [message]
    {
      entries := entries + [message];
    }
  }

  class NewsAgentState {
    var report: NewsReport
    var updates: UpdateLog
    var nextStep: NewsStep

    constructor (report: NewsReport, updates: UpdateLog, nextStep: NewsStep)
      ensures this.report == report && this.updates == updates && this.nextStep == nextStep
    {
      this.report := report;
      this.updates := updates;
      this.nextStep := nextStep;
    }
  }

  /** `calculate_news_sentiment_tool`. The new state is a shallow copy: it shares the report
      and the updates list with the old one, so the sentiments, the diagnosis and the message
      land in the old state's report and list too; only `next_step` is the copy's own. */
  method CalculateNewsSentimentTool(state: NewsAgentState, agent: NewsAgent) returns (updated: NewsAgentState)
    modifies state.report, state.updates
    ensures fresh(updated)
    ensures updated.report == state.report && updated.updates == state.updates
    ensures state.report.assetNews == old(state.report.assetNews)
    ensures state.report.assetNewsSentiments == ToRecords(AggregatedSentiment(old(state.report.assetNews)))
    ensures state.report.overallNewsDiagnosis == Some(Diagnose(Categories(AggregatedSentiment(old(state.report.assetNews)))))
    ensures state.updates.entries == old(state.updates.entries) + [ProgressMessage(agent)]
    ensures updated.nextStep == NewsSentimentSummaryNode
  {
    var report, log := state.report, state.updates;
    report.StoreSentiments();
    log.Append(ProgressMessage(agent));
    updated := new NewsAgentState(report, log, NewsSentimentSummaryNode);
  }
}
