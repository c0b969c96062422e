/** The social-media sentiment calculator: submissions are grouped by asset, each group is
    sorted newest first, each submission is scored by the dominance rule (no bias), weighted
    by recency and engagement, and the mean weighted score is scaled by a confidence that
    grows with the number of submissions and categorized at 0.55 / 0.45. */
module SocialSentiment {
  import opened Wrappers
  import opened Numeric
  import opened Grouping
  import opened SentimentScoring
  import NewsSentiment

  /** A subreddit submission about an asset. `createdAt` is the creation time in seconds, or
      None where the source's timestamp text is missing or empty; engagement counts may be
      missing too. `asset` is "" where the source has no asset. */
  datatype AssetSubreddit = AssetSubreddit(
    asset: string,
    title: string,
    createdAt: Option<int>,
    score: Option<int>,
    numComments: Option<int>,
    ups: Option<int>,
    sentimentScore: Option<SentimentScore>)

  const PositiveFrom: real := 0.55
  const NeutralFrom: real := 0.45
  /** Submissions newer than this many seconds before `now` are recent (10 days). */
  const RecentWindow: int := 10 * 24 * 60 * 60

  function SubmissionAsset(s: AssetSubreddit): string { s.asset }

  /** The calculator reads the sentiment of every grouped submission without a None check. */
  predicate Scored(subs: seq<AssetSubreddit>)
  {
    forall i :: 0 <= i < |subs| ==> subs[i].asset != "" ==> subs[i].sentimentScore.Some?
  }

  function CountOrZero(x: Option<int>): int
  {
    if x.Some? then x.value else 0
  }

  // ---- Sorting newest first ----

  /** The sort key order: a missing timestamp sorts as `datetime.min`, below every real one. */
  predicate NewerOrSame(a: Option<int>, b: Option<int>)
  {
    match a
    case None => b.None?
    case Some(x) => b.None? || x >= b.value
  }

  predicate NewestFirst(subs: seq<AssetSubreddit>)
  {
    forall i, j :: 0 <= i < j < |subs| ==> NewerOrSame(subs[i].createdAt, subs[j].createdAt)
  }

  /** Inserts a later submission after every submission at least as new, which keeps
      submissions with equal keys in input order. */
  function Insert(sorted: seq<AssetSubreddit>, x: AssetSubreddit): (r: seq<AssetSubreddit>)
    ensures |r| == |sorted| + 1
    ensures multiset(r) == multiset(sorted) + multiset{x}
  {
    if |sorted| == 0 then [x]
    else if NewerOrSame(sorted[0].createdAt, x.createdAt) then
      assert sorted == [sorted[0]] + sorted[1..];
      [sorted[0]] + Insert(sorted[1..], x)
    else [x] + sorted
  }

  /** `sorted(subs, key=created, reverse=True)`: a stable sort, newest first. */
  function SortNewestFirst(subs: seq<AssetSubreddit>): (r: seq<AssetSubreddit>)
    ensures |r| == |subs|
    ensures multiset(r) == multiset(subs)
  {
    if |subs| == 0 then []
    else
      assert subs == subs[..|subs| - 1] + [subs[|subs| - 1]];
      Insert(SortNewestFirst(subs[..|subs| - 1]), subs[|subs| - 1])
  }

  lemma {:induction false} InsertNewestFirst(sorted: seq<AssetSubreddit>, x: AssetSubreddit)
    requires NewestFirst(sorted)
    ensures NewestFirst(Insert(sorted, x))
  {
    if |sorted| > 0 && NewerOrSame(sorted[0].createdAt, x.createdAt) {
      var rest := sorted[1..];
      assert NewestFirst(rest);
      InsertNewestFirst(rest, x);
      InsertBelow(rest, x, sorted[0].createdAt);
      assert Insert(sorted, x) == [sorted[0]] + Insert(rest, x);
    }
  }

  /** A key at least as new as every submission and as the inserted one is at least as new
      as everything after the insertion. */
  lemma {:induction false} InsertBelow(sorted: seq<AssetSubreddit>, x: AssetSubreddit, top: Option<int>)
    requires forall k :: 0 <= k < |sorted| ==> NewerOrSame(top, sorted[k].createdAt)
    requires NewerOrSame(top, x.createdAt)
    ensures forall j :: 0 <= j < |Insert(sorted, x)| ==> NewerOrSame(top, Insert(sorted, x)[j].createdAt)
  {
    if |sorted| > 0 && NewerOrSame(sorted[0].createdAt, x.createdAt) {
      InsertBelow(sorted[1..], x, top);
      assert Insert(sorted, x) == [sorted[0]] + Insert(sorted[1..], x);
    }
  }

  /** The sort's result is ordered newest first and is a permutation of its input. */
  lemma {:induction false} SortIsNewestFirst(subs: seq<AssetSubreddit>)
    ensures NewestFirst(SortNewestFirst(subs))
    ensures multiset(SortNewestFirst(subs)) == multiset(subs)
  {
    if |subs| > 0 {
      SortIsNewestFirst(subs[..|subs| - 1]);
      InsertNewestFirst(SortNewestFirst(subs[..|subs| - 1]), subs[|subs| - 1]);
    }
  }

  /** The submissions with timestamp `key`, in their order in `subs`. */
  function WithKey(subs: seq<AssetSubreddit>, key: Option<int>): (r: seq<AssetSubreddit>)
    ensures |r| <= |subs|
  {
    if |subs| == 0 then []
    else (if subs[0].createdAt == key then [subs[0]] else []) + WithKey(subs[1..], key)
  }

  lemma {:induction false} WithKeyAppend(a: seq<AssetSubreddit>, b: seq<AssetSubreddit>, key: Option<int>)
    ensures WithKey(a + b, key) == WithKey(a, key) + WithKey(b, key)
  {
    if |a| > 0 {
      var head := if a[0].createdAt == key then [a[0]] else [];
      assert (a + b)[0] == a[0];
      assert (a + b)[1..] == a[1..] + b;
      WithKeyAppend(a[1..], b, key);
      calc {
        WithKey(a + b, key);
        head + WithKey(a[1..] + b, key);
        head + (WithKey(a[1..], key) + WithKey(b, key));
        (head + WithKey(a[1..], key)) + WithKey(b, key);
        WithKey(a, key) + WithKey(b, key);
      }
    } else {
      assert a + b == b;
    }
  }

  lemma ConcatAssoc(a: seq<AssetSubreddit>, b: seq<AssetSubreddit>, c: seq<AssetSubreddit>)
    ensures a + (b + c) == (a + b) + c
  {
  }

  lemma WithKeyHead(subs: seq<AssetSubreddit>, key: Option<int>)
    requires |subs| > 0
    ensures WithKey(subs, key) == WithKey([subs[0]], key) + WithKey(subs[1..], key)
  {
    assert [subs[0]][1..] == [];
  }

  lemma {:induction false} WithKeyNone(subs: seq<AssetSubreddit>, key: Option<int>)
    requires forall k :: 0 <= k < |subs| ==> subs[k].createdAt != key
    ensures WithKey(subs, key) == []
  {
    if |subs| > 0 {
      WithKeyNone(subs[1..], key);
    }
  }

  /** A newest-first sequence whose head is strictly older than `x` holds nothing with
      `x`'s timestamp. */
  lemma OlderThanHead(sorted: seq<AssetSubreddit>, x: AssetSubreddit)
    requires NewestFirst(sorted)
    requires |sorted| > 0 && !NewerOrSame(sorted[0].createdAt, x.createdAt)
    ensures WithKey(sorted, x.createdAt) == []
  {
    forall k | 0 <= k < |sorted|
      ensures sorted[k].createdAt != x.createdAt
    {
      if k > 0 {
        assert NewerOrSame(sorted[0].createdAt, sorted[k].createdAt);
      }
    }
    WithKeyNone(sorted, x.createdAt);
  }

  /** Insertion puts `x` after every submission with its own timestamp. */
  lemma {:induction false} InsertStable(sorted: seq<AssetSubreddit>, x: AssetSubreddit, key: Option<int>)
    requires NewestFirst(sorted)
    ensures WithKey(Insert(sorted, x), key) == WithKey(sorted, key) + WithKey([x], key)
  {
    if |sorted| == 0 {
      assert Insert(sorted, x) == [x];
    } else if NewerOrSame(sorted[0].createdAt, x.createdAt) {
      assert NewestFirst(sorted[1..]);
      InsertStable(sorted[1..], x, key);
      InsertPastHead(sorted, x, key);
    } else {
      InsertAtHead(sorted, x, key);
    }
  }

  lemma InsertPastHead(sorted: seq<AssetSubreddit>, x: AssetSubreddit, key: Option<int>)
    requires |sorted| > 0 && NewerOrSame(sorted[0].createdAt, x.createdAt)
    requires WithKey(Insert(sorted[1..], x), key) == WithKey(sorted[1..], key) + WithKey([x], key)
    ensures WithKey(Insert(sorted, x), key) == WithKey(sorted, key) + WithKey([x], key)
  {
    var h, w, t := WithKey([sorted[0]], key), WithKey(sorted[1..], key), WithKey([x], key);
    assert WithKey(Insert(sorted, x), key) == h + (w + t) by {
      assert Insert(sorted, x) == [sorted[0]] + Insert(sorted[1..], x);
      WithKeyAppend([sorted[0]], Insert(sorted[1..], x), key);
    }
    WithKeyHead(sorted, key);
    ConcatAssoc(h, w, t);
  }

  lemma InsertAtHead(sorted: seq<AssetSubreddit>, x: AssetSubreddit, key: Option<int>)
    requires NewestFirst(sorted)
    requires |sorted| > 0 && !NewerOrSame(sorted[0].createdAt, x.createdAt)
    ensures WithKey(Insert(sorted, x), key) == WithKey(sorted, key) + WithKey([x], key)
  {
    assert Insert(sorted, x) == [x] + sorted;
    WithKeyAppend([x], sorted, key);
    if x.createdAt == key {
      OlderThanHead(sorted, x);
    } else {
      assert WithKey([x], key) == [];
    }
  }

  /** The sort is stable: submissions with equal timestamps keep their input order. */
  lemma {:induction false} SortIsStable(subs: seq<AssetSubreddit>, key: Option<int>)
    ensures WithKey(SortNewestFirst(subs), key) == WithKey(subs, key)
  {
    if |subs| > 0 {
      var init := subs[..|subs| - 1];
      var last := subs[|subs| - 1];
      var sortedInit := SortNewestFirst(init);
      assert SortNewestFirst(subs) == Insert(sortedInit, last);
      SortIsStable(init, key);
      SortIsNewestFirst(init);
      InsertStable(sortedInit, last, key);
      WithKeyAppend(init, [last], key);
      assert init + [last] == subs;
    }
  }

  // ---- Per-submission figures ----

  /** A submission's score: the dominance rule clamped to [0, 1]. */
  function SubmissionScore(s: SentimentScore): (r: real)
    ensures 0.0 <= r <= 1.0
  {
    Clamp(0.0, 1.0, Dominance(OrZero(s.positive), OrZero(s.negative)))
  }

  /** Recency weight by position in the sorted group: the three newest get 1.1. */
  function TimeWeight(i: nat): real
  {
    if i < 3 then 1.1 else 1.0
  }

  /** 0.3 per point of score, 0.2 per comment and 0.1 per upvote. */
  function Engagement(s: AssetSubreddit): real
  {
    CountOrZero(s.score) as real * 0.3 + CountOrZero(s.numComments) as real * 0.2 + CountOrZero(s.ups) as real * 0.1
  }

  /** 1 plus a thousandth of the engagement, the boost capped at 0.1. */
  function EngagementWeight(s: AssetSubreddit): (w: real)
    ensures w <= 1.1
  {
    Min(Engagement(s) / 1000.0, 0.1) + 1.0
  }

  /** With non-negative counts the engagement weight lies in [1, 1.1]. */
  lemma EngagementWeightBounds(s: AssetSubreddit)
    requires CountOrZero(s.score) >= 0 && CountOrZero(s.numComments) >= 0 && CountOrZero(s.ups) >= 0
    ensures 1.0 <= EngagementWeight(s) <= 1.1
  {
  }

  /** Score 100, 50 comments and 90 upvotes give 30 + 10 + 9 = 49, a weight of 1.049. */
  lemma EngagementWeightExample(s: AssetSubreddit)
    requires s.score == Some(100) && s.numComments == Some(50) && s.ups == Some(90)
    ensures EngagementWeight(s) == 1.049
  {
  }

  /** The submission's sentiment; a grouped submission always has one. */
  function SentimentOf(s: AssetSubreddit): SentimentScore
  {
    if s.sentimentScore.Some? then s.sentimentScore.value else SentimentScore(None, None, None)
  }

  /** A submission counts as recent when it has a timestamp strictly after now - 10 days. */
  predicate IsRecent(s: AssetSubreddit, now: int)
  {
    s.createdAt.Some? && s.createdAt.value > now - RecentWindow
  }

  // ---- The lists and totals of a sorted group ----

  function Scores(subs: seq<AssetSubreddit>): (r: seq<real>)
    ensures |r| == |subs|
    ensures forall i :: 0 <= i < |subs| ==> r[i] == SubmissionScore(SentimentOf(subs[i]))
  {
    if |subs| == 0 then [] else Scores(subs[..|subs| - 1]) + [SubmissionScore(SentimentOf(subs[|subs| - 1]))]
  }

  function Positives(subs: seq<AssetSubreddit>): (r: seq<real>)
    ensures |r| == |subs|
  {
    if |subs| == 0 then [] else Positives(subs[..|subs| - 1]) + [OrZero(SentimentOf(subs[|subs| - 1]).positive)]
  }

  function Negatives(subs: seq<AssetSubreddit>): (r: seq<real>)
    ensures |r| == |subs|
  {
    if |subs| == 0 then [] else Negatives(subs[..|subs| - 1]) + [OrZero(SentimentOf(subs[|subs| - 1]).negative)]
  }

  function Neutrals(subs: seq<AssetSubreddit>): (r: seq<real>)
    ensures |r| == |subs|
  {
    if |subs| == 0 then [] else Neutrals(subs[..|subs| - 1]) + [OrZero(SentimentOf(subs[|subs| - 1]).neutral)]
  }

  /** A score times its recency weight times its engagement weight. */
  function Weigh(score: real, timeWeight: real, engagementWeight: real): real
  {
    score * timeWeight * engagementWeight
  }

  /** The weighted scores: the score at position i times its recency and engagement weights. */
  function Weighted(subs: seq<AssetSubreddit>): (r: seq<real>)
    ensures |r| == |subs|
  {
    if |subs| == 0 then []
    else
      var i := |subs| - 1;
      Weighted(subs[..i]) + [Weigh(SubmissionScore(SentimentOf(subs[i])), TimeWeight(i), EngagementWeight(subs[i]))]
  }

  function TotalScore(subs: seq<AssetSubreddit>): int
  {
    if |subs| == 0 then 0 else TotalScore(subs[..|subs| - 1]) + CountOrZero(subs[|subs| - 1].score)
  }

  function TotalComments(subs: seq<AssetSubreddit>): int
  {
    if |subs| == 0 then 0 else TotalComments(subs[..|subs| - 1]) + CountOrZero(subs[|subs| - 1].numComments)
  }

  function TotalUps(subs: seq<AssetSubreddit>): int
  {
    if |subs| == 0 then 0 else TotalUps(subs[..|subs| - 1]) + CountOrZero(subs[|subs| - 1].ups)
  }

  /** Number of recent submissions; never more than the submissions themselves. */
  function RecentCount(subs: seq<AssetSubreddit>, now: int): (k: nat)
    ensures k <= |subs|
  {
    if |subs| == 0 then 0 else RecentCount(subs[..|subs| - 1], now) + (if IsRecent(subs[|subs| - 1], now) then 1 else 0)
  }

  /** The confidence for `n` scored submissions: n/5 capped at 1, floored at 0.7. */
  function Confidence(n: nat): (c: real)
    ensures 0.7 <= c <= 1.0
    ensures c == 1.0 <==> n >= 5
  {
    Max(Min(n as real / 5.0, 1.0), 0.7)
  }

  /** `get_sentiment_category` of the social-media calculator. */
  function SocialCategory(score: real): Category
  {
    Categorize(score, PositiveFrom, NeutralFrom)
  }

  /** The social neutral band [0.45, 0.55) sits inside the news one [0.4, 0.6): the social
      calculator calls Positive or Negative what the news calculator may call Neutral, never
      the other way round. */
  lemma CategoryThresholdsDiffer(score: real)
    ensures SocialCategory(score) == Neutral ==> NewsSentiment.NewsCategory(score) == Neutral
    ensures NewsSentiment.NewsCategory(score) == Positive ==> SocialCategory(score) == Positive
    ensures NewsSentiment.NewsCategory(score) == Negative ==> SocialCategory(score) == Negative
    ensures SocialCategory(0.58) == Positive && NewsSentiment.NewsCategory(0.58) == Neutral
  {
  }

  /** One asset's entry in the summary dict. */
  datatype SocialSentimentSummary = SocialSentimentSummary(
    asset: string,
    finalSentimentScore: real,
    sentimentCategory: Category,
    totalSubmissions: nat,
    recentSubmissions: nat,
    averagePositive: real,
    averageNegative: real,
    averageNeutral: real,
    totalEngagementScore: int,
    totalComments: int,
    totalUps: int,
    mostRecentSubmission: AssetSubreddit,
    confidenceLevel: real)

  /** The final score of a sorted, non-empty group. */
  function FinalScore(sorted: seq<AssetSubreddit>): real
    requires |sorted| > 0
  {
    Scale(Mean(Weighted(sorted)), Confidence(|sorted|))
  }

  /** The weighted mean scaled by the confidence, clamped to [0, 1]. */
  function Scale(mean: real, confidence: real): real
  {
    Clamp(0.0, 1.0, mean * confidence)
  }

  /** The summary of one asset's (unsorted) group. */
  function Summarize(asset: string, subs: seq<AssetSubreddit>, now: int): SocialSentimentSummary
    requires |subs| > 0
  {
    var sorted := SortNewestFirst(subs);
    var final := FinalScore(sorted);
    SocialSentimentSummary(
      asset, final, SocialCategory(final), |sorted|, RecentCount(sorted, now),
      Mean(Positives(sorted)), Mean(Negatives(sorted)), Mean(Neutrals(sorted)),
      TotalScore(sorted), TotalComments(sorted), TotalUps(sorted),
      sorted[0], Confidence(|sorted|))
  }

  /** The loop over a sorted group: the four score lists, the engagement totals and the
      number of recent submissions. */
  method ScoreSubmissions(sortedSubs: seq<AssetSubreddit>, now: int)
    returns (sentimentScores: seq<real>, positiveScores: seq<real>, negativeScores: seq<real>, neutralScores: seq<real>,
             totalScore: int, totalComments: int, totalUps: int, recentSubmissions: nat)
    ensures sentimentScores == Scores(sortedSubs)
    ensures positiveScores == Positives(sortedSubs)
    ensures negativeScores == Negatives(sortedSubs)
    ensures neutralScores == Neutrals(sortedSubs)
    ensures totalScore == TotalScore(sortedSubs)
    ensures totalComments == TotalComments(sortedSubs)
    ensures totalUps == TotalUps(sortedSubs)
    ensures recentSubmissions == RecentCount(sortedSubs, now)
  {
    sentimentScores, positiveScores, negativeScores, neutralScores := [], [], [], [];
    totalScore, totalComments, totalUps, recentSubmissions := 0, 0, 0, 0;
    var recentCutoff := now - RecentWindow;
    for i := 0 to |sortedSubs|
      invariant sentimentScores == Scores(sortedSubs[..i])
      invariant positiveScores == Positives(sortedSubs[..i])
      invariant negativeScores == Negatives(sortedSubs[..i])
      invariant neutralScores == Neutrals(sortedSubs[..i])
      invariant totalScore == TotalScore(sortedSubs[..i])
      invariant totalComments == TotalComments(sortedSubs[..i])
      invariant totalUps == TotalUps(sortedSubs[..i])
      invariant recentSubmissions == RecentCount(sortedSubs[..i], now)
    {
      ScoreListsStep(sortedSubs, i);
      EngagementStep(sortedSubs, i, now);
      var sub := sortedSubs[i];
      var sentiment := SentimentOf(sub);
      var positive := OrZero(sentiment.positive);
      var negative := OrZero(sentiment.negative);
      var neutral := OrZero(sentiment.neutral);
      var normalized := Dominance(positive, negative);
      normalized := Clamp(0.0, 1.0, normalized);
      sentimentScores := sentimentScores + [normalized];
      positiveScores := positiveScores + [positive];
      negativeScores := negativeScores + [negative];
      neutralScores := neutralScores + [neutral];
      totalScore := totalScore + CountOrZero(sub.score);
      totalComments := totalComments + CountOrZero(sub.numComments);
      totalUps := totalUps + CountOrZero(sub.ups);
      if sub.createdAt.Some? && sub.createdAt.value > recentCutoff {
        recentSubmissions := recentSubmissions + 1;
      }
    }
    assert sortedSubs[..|sortedSubs|] == sortedSubs;
  }

  /** One more submission appends one entry to each score list. */
  lemma ScoreListsStep(subs: seq<AssetSubreddit>, i: nat)
    requires i < |subs|
    ensures Scores(subs[..i + 1]) == Scores(subs[..i]) + [SubmissionScore(SentimentOf(subs[i]))]
    ensures Positives(subs[..i + 1]) == Positives(subs[..i]) + [OrZero(SentimentOf(subs[i]).positive)]
    ensures Negatives(subs[..i + 1]) == Negatives(subs[..i]) + [OrZero(SentimentOf(subs[i]).negative)]
    ensures Neutrals(subs[..i + 1]) == Neutrals(subs[..i]) + [OrZero(SentimentOf(subs[i]).neutral)]
  {
    assert subs[..i + 1][..i] == subs[..i];
  }

  /** One more submission adds its counts to the totals, and one to the recent count when
      it is recent. */
  lemma EngagementStep(subs: seq<AssetSubreddit>, i: nat, now: int)
    requires i < |subs|
    ensures TotalScore(subs[..i + 1]) == TotalScore(subs[..i]) + CountOrZero(subs[i].score)
    ensures TotalComments(subs[..i + 1]) == TotalComments(subs[..i]) + CountOrZero(subs[i].numComments)
    ensures TotalUps(subs[..i + 1]) == TotalUps(subs[..i]) + CountOrZero(subs[i].ups)
    ensures RecentCount(subs[..i + 1], now) == RecentCount(subs[..i], now) + (if IsRecent(subs[i], now) then 1 else 0)
  {
    assert subs[..i + 1][..i] == subs[..i];
  }

  /** The loop that weights each score by its position and its submission's engagement. */
  method WeightScores(sortedSubs: seq<AssetSubreddit>, sentimentScores: seq<real>) returns (weightedScores: seq<real>)
    requires sentimentScores == Scores(sortedSubs)
    ensures weightedScores == Weighted(sortedSubs)
  {
    weightedScores := [];
    for i := 0 to |sentimentScores|
      invariant weightedScores == Weighted(sortedSubs[..i])
    {
      WeightedSnoc(sortedSubs, i);
      var timeWeight := TimeWeight(i);
      var engagementWeight := EngagementWeight(sortedSubs[i]);
      weightedScores := weightedScores + [Weigh(sentimentScores[i], timeWeight, engagementWeight)];
    }
    assert sortedSubs[..|sortedSubs|] == sortedSubs;
  }

  /** The weighted scores of one more submission extend those of the ones before it. */
  lemma WeightedSnoc(subs: seq<AssetSubreddit>, i: nat)
    requires i < |subs|
    ensures Weighted(subs[..i + 1]) ==
      Weighted(subs[..i]) + [Weigh(SubmissionScore(SentimentOf(subs[i])), TimeWeight(i), EngagementWeight(subs[i]))]
  {
    assert subs[..i + 1][..i] == subs[..i];
  }

  /** One group's summary: sort newest first, score, weight, scale by confidence, clamp. */
  method SummarizeGroup(asset: string, subs: seq<AssetSubreddit>, now: int) returns (summary: SocialSentimentSummary)
    requires |subs| > 0
    ensures summary == Summarize(asset, subs, now)
  {
    var sortedSubs := SortNewestFirst(subs);
    var sentimentScores, positiveScores, negativeScores, neutralScores, totalScore, totalComments, totalUps, recentSubmissions
      := ScoreSubmissions(sortedSubs, now);
    var weightedScores := WeightScores(sortedSubs, sentimentScores);
    var final := Mean(weightedScores);
    var confidence := Min(|sentimentScores| as real / 5.0, 1.0);
    confidence := Max(confidence, 0.7);
    assert confidence == Confidence(|sortedSubs|);
    final := Scale(final, confidence);
    summary := SocialSentimentSummary(
      asset, final, SocialCategory(final), |sortedSubs|, recentSubmissions,
      MeanOrZero(positiveScores), MeanOrZero(negativeScores), MeanOrZero(neutralScores),
      totalScore, totalComments, totalUps, sortedSubs[0], confidence);
  }

  /** A summary's score is in [0, 1] and categorized by the social thresholds; its confidence
      is in [0.7, 1], full from five submissions on; the recent submissions are among the
      submissions; and the most recent submission is at least as new as every other. */
  lemma SummaryProperties(asset: string, subs: seq<AssetSubreddit>, now: int)
    requires |subs| > 0
    ensures var s := Summarize(asset, subs, now);
      0.0 <= s.finalSentimentScore <= 1.0 &&
      s.sentimentCategory == SocialCategory(s.finalSentimentScore) &&
      0.7 <= s.confidenceLevel <= 1.0 && (s.confidenceLevel == 1.0 <==> |subs| >= 5) &&
      s.recentSubmissions <= s.totalSubmissions == |subs| &&
      s.mostRecentSubmission in subs &&
      forall x :: x in subs ==> NewerOrSame(s.mostRecentSubmission.createdAt, x.createdAt)
  {
    var sorted := SortNewestFirst(subs);
    SortIsNewestFirst(subs);
    assert sorted[0] in multiset(subs);
    forall x | x in subs
      ensures NewerOrSame(sorted[0].createdAt, x.createdAt)
    {
      assert x in multiset(sorted);
      var k :| 0 <= k < |sorted| && sorted[k] == x;
      if k > 0 {
        assert NewerOrSame(sorted[0].createdAt, sorted[k].createdAt);
      }
    }
  }

  /** A non-negative score times two weights of at least 1 is at least the score. */
  lemma WeightedTermAtLeast(score: real, timeWeight: real, engagementWeight: real)
    requires score >= 0.0 && timeWeight >= 1.0 && engagementWeight >= 1.0
    ensures score <= Weigh(score, timeWeight, engagementWeight)
  {
    assert score * timeWeight >= score * 1.0;
    assert score * timeWeight * engagementWeight >= score * timeWeight * 1.0;
  }

  /** With non-negative engagement counts every weight is at least 1, so the weighted scores
      add up to at least the plain scores. */
  lemma {:induction false} WeightedAtLeastScores(subs: seq<AssetSubreddit>)
    requires forall i :: 0 <= i < |subs| ==>
      CountOrZero(subs[i].score) >= 0 && CountOrZero(subs[i].numComments) >= 0 && CountOrZero(subs[i].ups) >= 0
    ensures Sum(Scores(subs)) <= Sum(Weighted(subs))
  {
    if |subs| > 0 {
      var i := |subs| - 1;
      var init := subs[..i];
      WeightedAtLeastScores(init);
      EngagementWeightBounds(subs[i]);
      var score := SubmissionScore(SentimentOf(subs[i]));
      var weighted := Weigh(score, TimeWeight(i), EngagementWeight(subs[i]));
      WeightedTermAtLeast(score, TimeWeight(i), EngagementWeight(subs[i]));
      assert Scores(subs) == Scores(init) + [score];
      assert Weighted(subs) == Weighted(init) + [weighted];
      SumSnoc(Scores(init), score);
      SumSnoc(Weighted(init), weighted);
    }
  }

  /** From five submissions on, with non-negative engagement, the final score of a sorted
      group is never below the plain mean of its submission scores: the weights only lift it. */
  lemma FullConfidenceNeverLowers(sorted: seq<AssetSubreddit>)
    requires |sorted| >= 5
    requires forall i :: 0 <= i < |sorted| ==>
      CountOrZero(sorted[i].score) >= 0 && CountOrZero(sorted[i].numComments) >= 0 && CountOrZero(sorted[i].ups) >= 0
    ensures Mean(Scores(sorted)) <= FinalScore(sorted)
  {
    MeanLifted(sorted);
    ScoresMeanInUnit(sorted);
    assert Confidence(|sorted|) == 1.0;
    FullScaleLifts(Mean(Scores(sorted)), Mean(Weighted(sorted)));
  }

  /** With non-negative engagement the weighted mean is at least the plain mean. */
  lemma MeanLifted(sorted: seq<AssetSubreddit>)
    requires |sorted| > 0
    requires forall i :: 0 <= i < |sorted| ==>
      CountOrZero(sorted[i].score) >= 0 && CountOrZero(sorted[i].numComments) >= 0 && CountOrZero(sorted[i].ups) >= 0
    ensures Mean(Scores(sorted)) <= Mean(Weighted(sorted))
  {
    WeightedAtLeastScores(sorted);
    MeanMonotone(Scores(sorted), Weighted(sorted));
  }

  lemma ScoresMeanInUnit(sorted: seq<AssetSubreddit>)
    requires |sorted| > 0
    ensures 0.0 <= Mean(Scores(sorted)) <= 1.0
  {
    MeanBounds(Scores(sorted), 0.0, 1.0);
  }

  /** At full confidence a value in [0, 1] below the mean stays below the scaled mean. */
  lemma FullScaleLifts(a: real, mean: real)
    requires 0.0 <= a <= 1.0 && a <= mean
    ensures a <= Scale(mean, 1.0)
  {
  }

  // ---- The dict of summaries and the tool ----

  function SummariesOf(list: seq<AssetSubreddit>, keys: seq<string>, now: int): (r: seq<SocialSentimentSummary>)
    requires forall k :: k in keys ==> |Members(list, SubmissionAsset, k)| > 0
    ensures |r| == |keys|
  {
    if |keys| == 0 then []
    else
      var k := keys[|keys| - 1];
      SummariesOf(list, keys[..|keys| - 1], now) + [Summarize(k, Members(list, SubmissionAsset, k), now)]
  }

  lemma AllGroupsNonEmpty(list: seq<AssetSubreddit>)
    ensures forall k :: k in FirstSeen(list, SubmissionAsset) ==> |Members(list, SubmissionAsset, k)| > 0
  {
    forall k | k in FirstSeen(list, SubmissionAsset)
      ensures |Members(list, SubmissionAsset, k)| > 0
    {
      GroupsNonEmpty(list, SubmissionAsset, k);
    }
  }

  /** `calculate_aggregated_sentiment`: the summary dict, as its values in key order. */
  function AggregatedSentiment(list: seq<AssetSubreddit>, now: int): seq<SocialSentimentSummary>
  {
    AllGroupsNonEmpty(list);
    SummariesOf(list, FirstSeen(list, SubmissionAsset), now)
  }

  method CalculateAggregatedSentiment(list: seq<AssetSubreddit>, now: int) returns (summaries: seq<SocialSentimentSummary>)
    requires Scored(list)
    ensures summaries == AggregatedSentiment(list, now)
  {
    var keys, groups := GroupByAsset(list, SubmissionAsset);
    AllGroupsNonEmpty(list);
    summaries := [];
    for i := 0 to |keys|
      invariant summaries == SummariesOf(list, keys[..i], now)
    {
      assert keys[i] in keys;
      var summary := SummarizeGroup(keys[i], groups[keys[i]], now);
      SummariesOfSnoc(list, keys, now, i);
      summaries := summaries + [summary];
    }
    assert keys[..|keys|] == keys;
  }

  lemma SummariesOfSnoc(list: seq<AssetSubreddit>, keys: seq<string>, now: int, i: nat)
    requires forall k :: k in keys ==> |Members(list, SubmissionAsset, k)| > 0
    requires i < |keys|
    ensures forall k :: k in keys[..i + 1] ==> |Members(list, SubmissionAsset, k)| > 0
    ensures forall k :: k in keys[..i] ==> |Members(list, SubmissionAsset, k)| > 0
    ensures SummariesOf(list, keys[..i + 1], now) ==
      SummariesOf(list, keys[..i], now) + [Summarize(keys[i], Members(list, SubmissionAsset, keys[i]), now)]
  {
    assert keys[..i + 1][..i] == keys[..i];
  }

  lemma {:induction false} SummariesOfAt(list: seq<AssetSubreddit>, keys: seq<string>, now: int, i: nat)
    requires forall k :: k in keys ==> |Members(list, SubmissionAsset, k)| > 0
    requires i < |keys|
    ensures SummariesOf(list, keys, now)[i] == Summarize(keys[i], Members(list, SubmissionAsset, keys[i]), now)
  {
    if i < |keys| - 1 {
      SummariesOfAt(list, keys[..|keys| - 1], now, i);
    }
  }

  /** One entry per distinct non-empty asset, in first-seen order, each counting at least one
      submission, with at most that many recent ones and a confidence in [0.7, 1]. */
  lemma AggregatedSentimentShape(list: seq<AssetSubreddit>, now: int)
    ensures |AggregatedSentiment(list, now)| == |FirstSeen(list, SubmissionAsset)|
    ensures forall i :: 0 <= i < |AggregatedSentiment(list, now)| ==>
      AggregatedSentiment(list, now)[i].asset == FirstSeen(list, SubmissionAsset)[i] &&
      0 < AggregatedSentiment(list, now)[i].totalSubmissions &&
      AggregatedSentiment(list, now)[i].recentSubmissions <= AggregatedSentiment(list, now)[i].totalSubmissions &&
      0.7 <= AggregatedSentiment(list, now)[i].confidenceLevel <= 1.0
  {
    var keys := FirstSeen(list, SubmissionAsset);
    AllGroupsNonEmpty(list);
    forall i | 0 <= i < |keys|
      ensures AggregatedSentiment(list, now)[i].asset == keys[i]
      ensures 0 < AggregatedSentiment(list, now)[i].totalSubmissions
      ensures AggregatedSentiment(list, now)[i].recentSubmissions <= AggregatedSentiment(list, now)[i].totalSubmissions
      ensures 0.7 <= AggregatedSentiment(list, now)[i].confidenceLevel <= 1.0
    {
      SummariesOfAt(list, keys, now, i);
      SummaryProperties(keys[i], Members(list, SubmissionAsset, keys[i]), now);
    }
  }

  function Categories(summaries: seq<SocialSentimentSummary>): (cs: seq<Category>)
    ensures |cs| == |summaries|
    ensures forall i :: 0 <= i < |summaries| ==> cs[i] == summaries[i].sentimentCategory
  {
    if |summaries| == 0 then [] else Categories(summaries[..|summaries| - 1]) + [summaries[|summaries| - 1].sentimentCategory]
  }

  /** The per-asset record the tool stores in the report (the summary without its submission). */
  datatype AssetSocialMediaSentiment = AssetSocialMediaSentiment(
    asset: string,
    finalSentimentScore: real,
    sentimentCategory: Category,
    totalSubmissions: nat,
    recentSubmissions: nat,
    averagePositive: real,
    averageNegative: real,
    averageNeutral: real,
    totalEngagementScore: int,
    totalComments: int,
    totalUps: int,
    confidenceLevel: real)

  function ToRecord(s: SocialSentimentSummary): AssetSocialMediaSentiment
  {
    AssetSocialMediaSentiment(s.asset, s.finalSentimentScore, s.sentimentCategory, s.totalSubmissions,
      s.recentSubmissions, s.averagePositive, s.averageNegative, s.averageNeutral,
      s.totalEngagementScore, s.totalComments, s.totalUps, s.confidenceLevel)
  }

  function ToRecords(summaries: seq<SocialSentimentSummary>): (r: seq<AssetSocialMediaSentiment>)
    ensures |r| == |summaries|
    ensures forall i :: 0 <= i < |summaries| ==> r[i] == ToRecord(summaries[i])
  {
    if |summaries| == 0 then [] else ToRecords(summaries[..|summaries| - 1]) + [ToRecord(summaries[|summaries| - 1])]
  }

  /** The steps of the social-media agent's workflow that the tool touches. */
  datatype SocialStep = SocialStart | SocialSentimentCalcNode | SocialEnd

  /** The report object of a social-media agent state. */
  class SocialMediaReport {
    var assetSubreddits: seq<AssetSubreddit>
    var assetSmSentiments: seq<AssetSocialMediaSentiment>
    var overallNewsDiagnosis: Option<OverallDiagnosis>

    constructor (subreddits: seq<AssetSubreddit>)
      ensures assetSubreddits == subreddits && assetSmSentiments == [] && overallNewsDiagnosis == None
    {
      assetSubreddits := subreddits;
      assetSmSentiments := [];
      overallNewsDiagnosis := None;
    }
  }

  class SocialMediaAgentState {
    var report: SocialMediaReport
    var nextStep: SocialStep

    constructor (report: SocialMediaReport, nextStep: SocialStep)
      ensures this.report == report && this.nextStep == nextStep
    {
      this.report := report;
      this.nextStep := nextStep;
    }
  }

  /** `calculate_social_media_sentiment_tool`: a shallow copy of the state that shares the
      report, so the sentiments and the diagnosis land in the old state's report too; the
      copy moves on to the end; the summary dict is returned beside it. */
  method CalculateSocialMediaSentimentTool(state: SocialMediaAgentState, now: int)
    returns (updated: SocialMediaAgentState, summary: seq<SocialSentimentSummary>)
    requires Scored(state.report.assetSubreddits)
    modifies state.report
    ensures fresh(updated) && updated.report == state.report
    ensures summary == AggregatedSentiment(old(state.report.assetSubreddits), now)
    ensures state.report.assetSubreddits == old(state.report.assetSubreddits)
    ensures state.report.assetSmSentiments == ToRecords(summary)
    ensures state.report.overallNewsDiagnosis == Some(Diagnose(Categories(summary)))
    ensures updated.nextStep == SocialEnd
  {
    summary := CalculateAggregatedSentiment(state.report.assetSubreddits, now);
    var diagnosis := Diagnose(Categories(summary));
    updated := new SocialMediaAgentState(state.report, state.nextStep);
    updated.report.assetSmSentiments := ToRecords(summary);
    updated.report.overallNewsDiagnosis := Some(diagnosis);
    updated.nextStep := SocialEnd;
  }
}
