/** News and social sentiment per symbol: articles are classified by
    counting bullish and bearish keywords, the news score is combined with a
    placeholder social score by confidence weighting, the result is given a
    label, and each symbol's sentiment is cached for thirty minutes. The
    news endpoint is a parameter from symbol to the decoded response, or to
    the failure (a non-200 status or a transport error); the clock is the
    parameter `now`. */
module SentimentAnalyzer {
  import opened Common

  const PositiveKeywords: seq<string> :=
    ["bull", "bullish", "rally", "surge", "moon", "pump", "gains",
     "profit", "buy", "investing", "adoption", "breakthrough", "success"]

  const NegativeKeywords: seq<string> :=
    ["bear", "bearish", "crash", "dump", "sell", "loss", "decline",
     "fall", "drop", "risk", "regulation", "ban", "hack", "scam"]

  /** The article count at which the news confidence reaches 1. */
  const FullConfidenceArticles: real := 20.0

  /** Thirty minutes, in seconds. */
  const SentimentCacheDuration: real := 1800.0

  /** One source's sentiment dictionary: the news analysis, the social
      placeholder, or the bare score and confidence of the neutral record. */
  datatype Reading =
    | NewsReading(score: real, articleCount: nat, positiveCount: nat, negativeCount: nat,
                  neutralCount: nat, confidence: real)
    | SocialReading(score: real, sources: seq<string>, mentions: nat, confidence: real)
    | BareReading(score: real, confidence: real)

  /** The combined record stored per symbol. */
  datatype Sentiment = Sentiment(overallScore: real, news: Reading, social: Reading,
                                 confidence: real, timestamp: real, interpretation: string)

  /** The news record with no articles; `_get_placeholder_news_sentiment`
      returns the same record. */
  const NoNews: Reading := NewsReading(0.0, 0, 0, 0, 0, 0.0)

  /** `_fetch_social_sentiment`: a neutral score with confidence one half. */
  const SocialPlaceholder: Reading := SocialReading(0.0, ["reddit", "twitter"], 0, 0.5)

  // ---------------------------------------------------------------------
  // Article classification

  /** Lower-cased text has no upper-case ASCII letter left. */
  predicate IsLower(s: string) {
    forall i :: 0 <= i < |s| ==> LowerChar(s[i]) == s[i]
  }

  /** `article.get(key, '').lower()`: a missing field reads as empty text; a
      present field that is not text (null included) has no `lower`. */
  function LowerField(fields: Dict<Json>, key: string): (r: Result<string>)
    ensures Get(fields, key).None? ==> r == Ok("")
    ensures r.Ok? <==> Get(fields, key).None? || Get(fields, key).value.JStr?
    ensures r.Ok? ==> IsLower(r.value) && (Get(fields, key).Some? ==> |r.value| == |Get(fields, key).value.s|)
    ensures r.Err? ==> r.error == "AttributeError"
  {
    match Get(fields, key)
    case None => Ok("")
    case Some(value) => if value.JStr? then Ok(Lower(value.s)) else Err("AttributeError")
  }

  /** The text an article is scored on: its lower-cased title and
      description joined by a space. An article that is not an object has no
      `get`. */
  function ArticleText(article: Json): (r: Result<string>)
    ensures !article.JObj? ==> r == Err("AttributeError")
    ensures r.Ok? <==> article.JObj? && LowerField(article.fields, "title").Ok?
                                     && LowerField(article.fields, "description").Ok?
    ensures r.Ok? ==> IsLower(r.value)
    ensures r.Err? ==> r.error == "AttributeError"
  {
    match article
    case JObj(fields) =>
      (match LowerField(fields, "title")
       case Err(e) => Err(e)
       case Ok(title) =>
         match LowerField(fields, "description")
         case Err(e) => Err(e)
         case Ok(description) => Ok(title + " " + description))
    case _ => Err("AttributeError")
  }

  /** How many of `keywords` occur in `content`, each counted once however
      often it occurs. */
  function Hits(keywords: seq<string>, content: string): (n: nat)
    ensures n <= |keywords|
  {
    if keywords == [] then 0
    else Hits(keywords[..|keywords| - 1], content) + (if Contains(content, keywords[|keywords| - 1]) then 1 else 0)
  }

  /** No hit means that no keyword occurs in the text, and conversely. */
  lemma {:induction false} NoHits(keywords: seq<string>, content: string)
    ensures Hits(keywords, content) == 0 <==> forall k :: k in keywords ==> !Contains(content, k)
  {
    if keywords != [] {
      var front := keywords[..|keywords| - 1];
      var last := keywords[|keywords| - 1];
      NoHits(front, content);
      assert keywords == front + [last];
      assert last in keywords;
      assert forall k :: k in front ==> k in keywords;
    }
  }

  /** An article's score from its keyword counts: +1 when the positive hits
      outnumber the negative ones, -1 in the opposite case, 0 on a tie. */
  function Classify(positiveHits: nat, negativeHits: nat): (c: int)
    ensures c == 1 <==> positiveHits > negativeHits
    ensures c == -1 <==> negativeHits > positiveHits
    ensures c == 0 <==> positiveHits == negativeHits
  {
    if positiveHits > negativeHits then 1
    else if negativeHits > positiveHits then -1
    else 0
  }

  /** Swapping the two keyword lists flips the score. */
  lemma ClassifyAntisymmetric(p: nat, n: nat)
    ensures Classify(n, p) == -Classify(p, n)
  {
  }

  /** The score of one article, or the error reading it raises. */
  function ArticleScore(article: Json): (r: Result<int>)
    ensures r.Err? <==> ArticleText(article).Err?
    ensures r.Ok? ==> -1 <= r.value <= 1
  {
    match ArticleText(article)
    case Err(e) => Err(e)
    case Ok(content) => Ok(Classify(Hits(PositiveKeywords, content), Hits(NegativeKeywords, content)))
  }

  /** A keyword inside a longer keyword counts for both: a "bullish"
      headline has two positive hits, so it outweighs one bearish keyword. */
  lemma NestedKeywordsCountTwice()
    ensures Hits(PositiveKeywords[..2], "bullish") == 2
  {
    assert PositiveKeywords[..2] == ["bull", "bullish"];
    assert ["bull", "bullish"][..1] == ["bull"];
    assert Contains("bullish", "bull");
    assert Contains("bullish", "bullish");
  }

  // ---------------------------------------------------------------------
  // The news analysis

  /** The outcome of scoring each article, in order. */
  function ArticleScores(articles: seq<Json>): (rs: seq<Result<int>>)
    ensures |rs| == |articles|
  {
    if articles == [] then []
    else ArticleScores(articles[..|articles| - 1]) + [ArticleScore(articles[|articles| - 1])]
  }

  lemma {:induction false} ArticleScoresAt(articles: seq<Json>, i: nat)
    requires i < |articles|
    ensures ArticleScores(articles)[i] == ArticleScore(articles[i])
  {
    if i < |articles| - 1 {
      ArticleScoresAt(articles[..|articles| - 1], i);
    }
  }

  /** The per-article scores, in order; the first unreadable article stops
      the analysis with its error. */
  function Scores(articles: seq<Json>): (r: Result<seq<int>>)
    ensures r.Ok? <==> forall i :: 0 <= i < |articles| ==> ArticleText(articles[i]).Ok?
    ensures r.Ok? ==> |r.value| == |articles|
    ensures r.Ok? ==> forall i :: 0 <= i < |articles| ==> -1 <= r.value[i] <= 1
    ensures r.Err? ==> r.error == "AttributeError"
  {
    var rs := ArticleScores(articles);
    assert forall i :: 0 <= i < |articles| ==> rs[i] == ArticleScore(articles[i]) by {
      forall i | 0 <= i < |articles| {
        ArticleScoresAt(articles, i);
      }
    }
    AllOk(rs)
  }

  /** How many of `xs` equal `v`. */
  function Count(xs: seq<int>, v: int): (n: nat)
    ensures n <= |xs|
  {
    if xs == [] then 0 else Count(xs[..|xs| - 1], v) + (if xs[|xs| - 1] == v then 1 else 0)
  }

  /** Appending one score adds one to its own counter and its value to the
      sum. */
  lemma CountExtend(xs: seq<int>, x: int)
    ensures Count(xs + [x], 1) == Count(xs, 1) + (if x == 1 then 1 else 0)
    ensures Count(xs + [x], -1) == Count(xs, -1) + (if x == -1 then 1 else 0)
    ensures Count(xs + [x], 0) == Count(xs, 0) + (if x == 0 then 1 else 0)
    ensures SumInts(xs + [x]) == SumInts(xs) + x
  {
    assert (xs + [x])[..|xs|] == xs;
  }

  /** `sum(xs)`. */
  function SumInts(xs: seq<int>): int {
    if xs == [] then 0 else SumInts(xs[..|xs| - 1]) + xs[|xs| - 1]
  }

  /** The news record the analysis builds from the article scores. */
  function Summary(scores: seq<int>): Reading {
    var n := |scores|;
    NewsReading(if n == 0 then 0.0 else SumInts(scores) as real / n as real,
                n, Count(scores, 1), Count(scores, -1), Count(scores, 0),
                Min(n as real / FullConfidenceArticles, 1.0))
  }

  /** `_analyze_news_sentiment`: the all-zero record for no articles, the
      summary of the article scores otherwise, or the error an unreadable
      article raises. */
  function NewsAnalysis(articles: seq<Json>): Result<Reading> {
    if articles == [] then Ok(NoNews)
    else
      match Scores(articles)
      case Err(e) => Err(e)
      case Ok(scores) => Ok(Summary(scores))
  }

  /** Scores of +1, 0 and -1 are counted once each: the three counters add
      up to the article count, and the sum of the scores is the positive
      count less the negative count. */
  lemma {:induction false} CountsPartition(xs: seq<int>)
    requires forall i :: 0 <= i < |xs| ==> -1 <= xs[i] <= 1
    ensures Count(xs, 1) + Count(xs, -1) + Count(xs, 0) == |xs|
    ensures SumInts(xs) == Count(xs, 1) - Count(xs, -1)
  {
    if xs != [] {
      CountsPartition(xs[..|xs| - 1]);
    }
  }

  /** A news record consistent with `n` analysed articles: one counter per
      article, a score that is the mean of the article scores (+1, 0, -1)
      and so lies in [-1, 1] and is positive exactly when the positive
      articles outnumber the negative ones, and a confidence that grows with
      the article count up to 1. */
  predicate ConsistentNews(r: Reading, n: nat) {
    && r.NewsReading?
    && r.articleCount == n
    && r.positiveCount + r.negativeCount + r.neutralCount == n
    && -1.0 <= r.score <= 1.0
    && (n > 0 ==> r.score * n as real == r.positiveCount as real - r.negativeCount as real)
    && (r.score > 0.0 <==> r.positiveCount > r.negativeCount)
    && r.confidence == Min(n as real / FullConfidenceArticles, 1.0)
    && 0.0 <= r.confidence <= 1.0
  }

  lemma SummaryFacts(scores: seq<int>)
    requires forall i :: 0 <= i < |scores| ==> -1 <= scores[i] <= 1
    ensures ConsistentNews(Summary(scores), |scores|)
  {
    if scores != [] {
      NonEmptySummaryFacts(scores);
    }
  }

  lemma NonEmptySummaryFacts(scores: seq<int>)
    requires scores != [] && forall i :: 0 <= i < |scores| ==> -1 <= scores[i] <= 1
    ensures ConsistentNews(Summary(scores), |scores|)
  {
    CountsPartition(scores);
    CountedRecordFacts(Count(scores, 1), Count(scores, -1), Count(scores, 0), Summary(scores));
  }

  /** The record facts in terms of the three counters alone. */
  lemma CountedRecordFacts(pos: nat, neg: nat, neu: nat, r: Reading)
    requires pos + neg + neu > 0
    requires r == NewsReading((pos as real - neg as real) / (pos + neg + neu) as real, pos + neg + neu, pos, neg, neu,
                              Min((pos + neg + neu) as real / FullConfidenceArticles, 1.0))
    ensures ConsistentNews(r, pos + neg + neu)
  {
    CountedScore(pos, neg, neu, r.score);
    CountedConfidence(pos + neg + neu, r.confidence);
  }

  lemma CountedScore(pos: nat, neg: nat, neu: nat, score: real)
    requires pos + neg + neu > 0
    requires score == (pos as real - neg as real) / (pos + neg + neu) as real
    ensures -1.0 <= score <= 1.0
    ensures score * (pos + neg + neu) as real == pos as real - neg as real
    ensures score > 0.0 <==> pos > neg
  {
    MeanOfBounded(pos as real - neg as real, (pos + neg + neu) as real, score);
  }

  lemma CountedConfidence(n: nat, confidence: real)
    requires confidence == Min(n as real / FullConfidenceArticles, 1.0)
    ensures 0.0 <= confidence <= 1.0
  {
    DivMonotone(0.0, n as real, FullConfidenceArticles);
  }

  /** Whatever the articles, a readable list gives a consistent record. */
  lemma AnalysisFacts(articles: seq<Json>)
    requires NewsAnalysis(articles).Ok?
    ensures ConsistentNews(NewsAnalysis(articles).value, |articles|)
  {
    if articles != [] {
      SummaryFacts(Scores(articles).value);
    }
  }

  lemma MeanOfBounded(d: real, n: real, x: real)
    requires n > 0.0 && -n <= d <= n && x == d / n
    ensures -1.0 <= x <= 1.0
    ensures x * n == d
    ensures x > 0.0 <==> d > 0.0
  {
    DivTimes(d, n);
    DivMonotone(d, n, n);
    DivMonotone(-n, d, n);
    CancelFactor(1.0, n);
    CancelFactor(-1.0, n);
    if d > 0.0 {
      DivMonotone(0.0, d, n);
    } else {
      DivMonotone(d, 0.0, n);
    }
  }

  lemma DivTimes(a: real, t: real)
    requires t != 0.0
    ensures (a / t) * t == a
  {
  }

  /** A readable list of twenty articles or more gives full confidence. */
  lemma ManyArticlesFullConfidence(articles: seq<Json>)
    requires |articles| >= 20
    ensures NewsAnalysis(articles).Ok? ==> NewsAnalysis(articles).value.confidence == 1.0
  {
    assert |articles| as real / FullConfidenceArticles >= 1.0;
  }

  /** An unreadable article after readable ones ends the analysis with
      its error. */
  lemma AnalysisStops(articles: seq<Json>, i: nat)
    requires i < |articles| && AllOk(ArticleScores(articles)[..i]).Ok? && ArticleScore(articles[i]).Err?
    ensures NewsAnalysis(articles) == Err(ArticleScore(articles[i]).error)
  {
    ArticleScoresAt(articles, i);
    AllOkStops(ArticleScores(articles), i);
  }

  /** Readable articles throughout: the analysis summarises their scores. */
  lemma AnalysisCompletes(articles: seq<Json>, scores: seq<int>)
    requires articles != [] && AllOk(ArticleScores(articles)[..|articles|]) == Ok(scores)
    ensures NewsAnalysis(articles) == Ok(Summary(scores)) && |scores| == |articles|
  {
    WholePrefix(ArticleScores(articles));
  }

  /** The analysis as a single pass over the articles, counting as it goes. */
  method AnalyzeNewsSentiment(articles: seq<Json>) returns (r: Result<Reading>)
    ensures r == NewsAnalysis(articles)
  {
    if articles == [] {
      return Ok(NoNews);
    }
    ghost var rs := ArticleScores(articles);
    var scores: seq<int> := [];
    var positiveCount, negativeCount, neutralCount := 0, 0, 0;
    var total := 0;
    var i := 0;
    while i < |articles|
      invariant 0 <= i <= |articles|
      invariant AllOk(rs[..i]) == Ok(scores)
      invariant positiveCount == Count(scores, 1) && negativeCount == Count(scores, -1)
      invariant neutralCount == Count(scores, 0) && total == SumInts(scores)
    {
      var scored := ArticleScore(articles[i]);
      if scored.Err? {
        AnalysisStops(articles, i);
        return Err(scored.error);
      }
      var score := scored.value;
      if score == 1 {
        positiveCount := positiveCount + 1;
      } else if score == -1 {
        negativeCount := negativeCount + 1;
      } else {
        neutralCount := neutralCount + 1;
      }
      ArticleScoresAt(articles, i);
      AllOkExtend(rs, i);
      CountExtend(scores, score);
      scores := scores + [score];
      total := total + score;
      i := i + 1;
    }
    AnalysisCompletes(articles, scores);
    var n := |articles|;
    r := Ok(NewsReading(total as real / n as real, n, positiveCount, negativeCount, neutralCount,
                        Min(n as real / FullConfidenceArticles, 1.0)));
  }

  // ---------------------------------------------------------------------
  // Fetching the news

  /** A key is used only when it is given and not empty. */
  predicate HasKey(key: Option<string>) {
    key.Some? && key.value != ""
  }

  /** `_fetch_news_sentiment`: without a key, the placeholder. Otherwise the
      analysis of the response's `articles`; a failed request, a body without
      `articles` or an analysis that raises all give the placeholder. An
      `articles` value that is not a list is either falsy, which reads as no
      articles, or not a list of objects, which raises: the placeholder
      either way. */
  function NewsFor(apiKey: Option<string>, response: Result<Json>): Reading {
    if !HasKey(apiKey) then NoNews
    else
      match response
      case Err(_) => NoNews
      case Ok(data) =>
        if data.JObj? && Get(data.fields, "articles").Some? && Get(data.fields, "articles").value.JArr? then
          match NewsAnalysis(Get(data.fields, "articles").value.items)
          case Ok(news) => news
          case Err(_) => NoNews
        else NoNews
  }

  /** Whatever the endpoint answers, the news record is well formed: counts
      that add up, a score in [-1, 1] and a confidence in [0, 1]. */
  lemma NewsForBounds(apiKey: Option<string>, response: Result<Json>)
    ensures var r := NewsFor(apiKey, response);
      && r.NewsReading?
      && r.positiveCount + r.negativeCount + r.neutralCount == r.articleCount
      && -1.0 <= r.score <= 1.0 && 0.0 <= r.confidence <= 1.0
  {
    if HasKey(apiKey) && response.Ok? {
      var data := response.value;
      if data.JObj? && Get(data.fields, "articles").Some? && Get(data.fields, "articles").value.JArr? {
        var items := Get(data.fields, "articles").value.items;
        if NewsAnalysis(items).Ok? {
          AnalysisFacts(items);
        }
      }
    }
  }

  /** The news fetch as the source performs it, running the analysis pass. */
  method FetchNewsSentiment(apiKey: Option<string>, response: Result<Json>) returns (news: Reading)
    ensures news == NewsFor(apiKey, response)
  {
    if !HasKey(apiKey) {
      return NoNews;
    }
    if response.Err? {
      return NoNews;
    }
    var data := response.value;
    if !(data.JObj? && Get(data.fields, "articles").Some? && Get(data.fields, "articles").value.JArr?) {
      return NoNews;
    }
    var analysis := AnalyzeNewsSentiment(Get(data.fields, "articles").value.items);
    if analysis.Err? {
      return NoNews;
    }
    news := analysis.value;
  }

  // ---------------------------------------------------------------------
  // Combination and interpretation

  /** `_interpret_sentiment`: five bands with strict lower bounds. */
  function Interpret(score: real): (band: string)
    ensures band == "Very Bullish" <==> score > 0.3
    ensures band == "Bullish" <==> 0.1 < score <= 0.3
    ensures band == "Neutral" <==> -0.1 < score <= 0.1
    ensures band == "Bearish" <==> -0.3 < score <= -0.1
    ensures band == "Very Bearish" <==> score <= -0.3
  {
    if score > 0.3 then "Very Bullish"
    else if score > 0.1 then "Bullish"
    else if score > -0.1 then "Neutral"
    else if score > -0.3 then "Bearish"
    else "Very Bearish"
  }

  /** The position of a label from most bearish (0) to most bullish (4). */
  function LabelRank(band: string): int {
    if band == "Very Bearish" then 0
    else if band == "Bearish" then 1
    else if band == "Neutral" then 2
    else if band == "Bullish" then 3
    else 4
  }

  /** A higher score never gets a more bearish label. */
  lemma InterpretMonotone(a: real, b: real)
    requires a <= b
    ensures LabelRank(Interpret(a)) <= LabelRank(Interpret(b))
  {
  }

  /** The unit tests' five sample scores, one per band. */
  lemma InterpretExamples()
    ensures Interpret(0.4) == "Very Bullish" && Interpret(0.2) == "Bullish"
    ensures Interpret(0.0) == "Neutral" && Interpret(-0.2) == "Bearish"
    ensures Interpret(-0.4) == "Very Bearish"
  {
  }

  /** `_combine_sentiments`: the confidence-weighted mean of the two scores
      (0 when the confidences add up to nothing), half the total confidence,
      the time of combination and the label of the overall score. */
  function Combine(news: Reading, social: Reading, now: real): (s: Sentiment)
    ensures s.news == news && s.social == social && s.timestamp == now
    ensures var total := news.confidence + social.confidence;
      && (total > 0.0 ==> s.overallScore * total == news.score * news.confidence + social.score * social.confidence)
      && (total <= 0.0 ==> s.overallScore == 0.0)
      && s.confidence + s.confidence == total
    ensures s.interpretation == Interpret(s.overallScore)
  {
    var overall := WeightedScore(news.score, news.confidence, social.score, social.confidence);
    Sentiment(overall, news, social, (news.confidence + social.confidence) / 2.0, now, Interpret(overall))
  }

  /** The mean of `a` and `b` weighted by `wa` and `wb`, or 0 when the
      weights add up to nothing. */
  function WeightedScore(a: real, wa: real, b: real, wb: real): (x: real)
    ensures wa + wb > 0.0 ==> x * (wa + wb) == a * wa + b * wb
    ensures wa + wb <= 0.0 ==> x == 0.0
  {
    if wa + wb > 0.0 then
      DivTimes(a * wa + b * wb, wa + wb);
      (a * wa + b * wb) / (wa + wb)
    else 0.0
  }

  /** With non-negative confidences the overall score lies between the two
      scores it combines. */
  lemma CombineBetween(news: Reading, social: Reading, now: real)
    requires news.confidence >= 0.0 && social.confidence >= 0.0
    requires news.confidence + social.confidence > 0.0
    ensures Min(news.score, social.score) <= Combine(news, social, now).overallScore <= Max(news.score, social.score)
  {
    var lo := Min(news.score, social.score);
    var hi := Max(news.score, social.score);
    var total := news.confidence + social.confidence;
    var x := Combine(news, social, now).overallScore;
    WeightedBetween(news.score, news.confidence, social.score, social.confidence, lo, hi);
    assert x * total == news.score * news.confidence + social.score * social.confidence;
    ScaleBetween(x, total, lo, hi);
  }

  lemma WeightedBetween(a: real, wa: real, b: real, wb: real, lo: real, hi: real)
    requires wa >= 0.0 && wb >= 0.0 && lo <= a <= hi && lo <= b <= hi
    ensures lo * (wa + wb) <= a * wa + b * wb <= hi * (wa + wb)
  {
    WeightedBelow(a, wa, b, wb, hi);
    WeightedBelow(-a, wa, -b, wb, -lo);
    assert -a * wa + -b * wb == -(a * wa + b * wb);
    assert -lo * (wa + wb) == -(lo * (wa + wb));
  }

  lemma WeightedBelow(a: real, wa: real, b: real, wb: real, hi: real)
    requires wa >= 0.0 && wb >= 0.0 && a <= hi && b <= hi
    ensures a * wa + b * wb <= hi * (wa + wb)
  {
    MulMonotone(a, hi, wa);
    MulMonotone(b, hi, wb);
    assert hi * (wa + wb) == hi * wa + hi * wb;
  }

  lemma ScaleBetween(x: real, t: real, lo: real, hi: real)
    requires t > 0.0 && lo * t <= x * t <= hi * t
    ensures lo <= x <= hi
  {
    DivMonotone(lo * t, x * t, t);
    DivMonotone(x * t, hi * t, t);
    CancelFactor(lo, t);
    CancelFactor(x, t);
    CancelFactor(hi, t);
  }

  /** Against the neutral social placeholder, news with confidence at most 1
      keeps its sign and loses at least a third of its strength: even
      unanimous, fully confident news scores at most 2/3 overall. */
  lemma PlaceholderDampens(news: Reading, now: real)
    requires 0.0 <= news.confidence <= 1.0
    ensures var x := Combine(news, SocialPlaceholder, now).overallScore;
      && (news.score >= 0.0 ==> 0.0 <= x <= news.score * (2.0 / 3.0))
      && (news.score <= 0.0 ==> news.score * (2.0 / 3.0) <= x <= 0.0)
  {
    var c := news.confidence;
    var t := c + 0.5;
    var sc := news.score;
    var h := sc * (2.0 / 3.0);
    var x := Combine(news, SocialPlaceholder, now).overallScore;
    assert x * t == sc * c;
    assert h * t - sc * c == sc * (1.0 - c) / 3.0;
    if sc >= 0.0 {
      MulNonNegative(sc, 1.0 - c);
      MulNonNegative(sc, c);
      assert 0.0 * t <= x * t;
      assert x * t <= h * t;
      ScaleBetween(x, t, 0.0, h);
    } else {
      MulNonNegative(-sc, 1.0 - c);
      MulNonNegative(-sc, c);
      assert h * t <= x * t;
      assert x * t <= 0.0 * t;
      ScaleBetween(x, t, h, 0.0);
    }
  }

  /** `_get_neutral_sentiment`: zero scores and confidences, labelled
      "Neutral". */
  function NeutralSentiment(now: real): (s: Sentiment)
    ensures s.interpretation == Interpret(s.overallScore)
  {
    Sentiment(0.0, BareReading(0.0, 0.0), BareReading(0.0, 0.0), 0.0, now, "Neutral")
  }

  /** The neutral record is what combining two empty readings gives. */
  lemma NeutralIsEmptyCombination(now: real)
    ensures NeutralSentiment(now) == Combine(BareReading(0.0, 0.0), BareReading(0.0, 0.0), now)
  {
  }

  /** A fresh lookup: the fetched news combined with the social placeholder. */
  function Fetched(apiKey: Option<string>, response: Result<Json>, now: real): Sentiment {
    Combine(NewsFor(apiKey, response), SocialPlaceholder, now)
  }

  /** A fresh lookup with no usable news gives the neutral score, labelled
      "Neutral", with confidence one quarter. */
  lemma NoNewsIsNeutral(response: Result<Json>, now: real)
    ensures Fetched(None, response, now).overallScore == 0.0
    ensures Fetched(None, response, now).interpretation == "Neutral"
    ensures Fetched(None, response, now).confidence == 0.25
  {
  }

  /** What a lookup of `symbol` gives: the cached record while it is younger
      than `duration`, otherwise a fresh one. */
  function SentimentFor(cache: map<string, Sentiment>, fetchedAt: map<string, real>, duration: real,
                        apiKey: Option<string>, newsResponse: string -> Result<Json>,
                        symbol: string, now: real): Sentiment
  {
    if FreshIn(cache, fetchedAt, duration, symbol, now) then cache[symbol]
    else Fetched(apiKey, newsResponse(symbol), now)
  }

  class SentimentAnalyzer {
    const newsApiKey: Option<string>
    const cacheDuration: real
    var sentimentCache: map<string, Sentiment>
    var lastFetchTime: map<string, real>

    /** The given key, or the environment's when the given one is missing or
        empty; an empty cache kept for thirty minutes. */
    constructor(newsApiKey: Option<string>, environmentKey: Option<string>)
      ensures this.newsApiKey == (if HasKey(newsApiKey) then newsApiKey else environmentKey)
      ensures cacheDuration == SentimentCacheDuration
      ensures sentimentCache == map[] && lastFetchTime == map[]
    {
      this.newsApiKey := if HasKey(newsApiKey) then newsApiKey else environmentKey;
      cacheDuration := SentimentCacheDuration;
      sentimentCache := map[];
      lastFetchTime := map[];
    }

    /** `_is_cache_valid`: an entry and a fetch time exist for the symbol and
        the entry is younger than the cache duration. */
    predicate IsCacheValid(symbol: string, now: real)
      reads this
    {
      symbol in sentimentCache && symbol in lastFetchTime && now - lastFetchTime[symbol] < cacheDuration
    }

    /** `_update_cache`: stores the record and the time for this symbol only;
        the entry then stays valid for exactly the cache duration. */
    method UpdateCache(symbol: string, sentiment: Sentiment, now: real)
      modifies this
      ensures sentimentCache == old(sentimentCache)[symbol := sentiment]
      ensures lastFetchTime == old(lastFetchTime)[symbol := now]
      ensures forall t :: IsCacheValid(symbol, t) <==> t - now < cacheDuration
      ensures forall s, t :: s != symbol ==> (IsCacheValid(s, t) <==> old(IsCacheValid(s, t)))
    {
      sentimentCache := sentimentCache[symbol := sentiment];
      lastFetchTime := lastFetchTime[symbol := now];
    }

    /** `get_sentiment_data`: every symbol gets a record, from a valid cache
        entry without a request, or else freshly fetched, combined and
        cached. `fetched` lists, in order, the symbols that were fetched. */
    method GetSentimentData(symbols: seq<string>, newsResponse: string -> Result<Json>, now: real)
      returns (results: Dict<Sentiment>, fetched: seq<string>)
      requires cacheDuration > 0.0
      modifies this
      ensures forall s :: s in symbols ==>
        Get(results, s) == Some(SentimentFor(old(sentimentCache), old(lastFetchTime), cacheDuration,
                                             newsApiKey, newsResponse, s, now))
      ensures forall s :: s !in symbols ==> Get(results, s).None?
      ensures forall k :: 0 <= k < |fetched| ==> fetched[k] in symbols && !old(IsCacheValid(fetched[k], now))
      ensures forall s :: s in symbols && !old(IsCacheValid(s, now)) ==> s in fetched
      ensures forall s :: s in symbols ==> IsCacheValid(s, now) && sentimentCache[s] == Get(results, s).value
      ensures forall s :: s !in symbols ==>
        SameEntry(sentimentCache, lastFetchTime, old(sentimentCache), old(lastFetchTime), s)
      ensures forall s :: s in symbols ==>
        KeptOrStamped(sentimentCache, lastFetchTime, old(sentimentCache), old(lastFetchTime), cacheDuration, s, now)
    {
      ghost var cache0 := sentimentCache;
      ghost var time0 := lastFetchTime;
      results := [];
      fetched := [];
      var i := 0;
      while i < |symbols|
        invariant 0 <= i <= |symbols|
        invariant forall s :: s in symbols[..i] ==>
          LookedUp(sentimentCache, lastFetchTime, cacheDuration, results, s,
                   SentimentFor(cache0, time0, cacheDuration, newsApiKey, newsResponse, s, now), now)
        invariant forall s :: s !in symbols[..i] ==>
          Get(results, s).None? && SameEntry(sentimentCache, lastFetchTime, cache0, time0, s)
        invariant forall s :: s in symbols[..i] ==>
          KeptOrStamped(sentimentCache, lastFetchTime, cache0, time0, cacheDuration, s, now)
        invariant forall k :: 0 <= k < |fetched| ==>
          fetched[k] in symbols[..i] && !FreshIn(cache0, time0, cacheDuration, fetched[k], now)
        invariant forall s :: s in symbols[..i] && !FreshIn(cache0, time0, cacheDuration, s, now) ==> s in fetched
      {
        var symbol := symbols[i];
        assert symbols[..i + 1] == symbols[..i] + [symbol];
        ghost var results0, cache1, time1 := results, sentimentCache, lastFetchTime;
        ghost var served := SentimentFor(cache0, time0, cacheDuration, newsApiKey, newsResponse, symbol, now);
        if symbol in symbols[..i] {
          assert LookedUp(cache1, time1, cacheDuration, results0, symbol, served, now);
        } else {
          assert SameEntry(cache1, time1, cache0, time0, symbol);
        }
        assert SentimentFor(cache1, time1, cacheDuration, newsApiKey, newsResponse, symbol, now) == served;
        var wasFetched;
        results, wasFetched := LookUp(symbol, newsResponse, now, results);
        if wasFetched {
          fetched := fetched + [symbol];
        }
        forall s | s in symbols[..i + 1]
          ensures LookedUp(sentimentCache, lastFetchTime, cacheDuration, results, s,
                           SentimentFor(cache0, time0, cacheDuration, newsApiKey, newsResponse, s, now), now)
          ensures KeptOrStamped(sentimentCache, lastFetchTime, cache0, time0, cacheDuration, s, now)
        {
          if s != symbol {
            assert s in symbols[..i];
            FramePreservesLookedUp(cache1, time1, sentimentCache, lastFetchTime, cacheDuration, results0, results, s,
                                   SentimentFor(cache0, time0, cacheDuration, newsApiKey, newsResponse, s, now), now);
          } else if symbol in symbols[..i] {
            StampedStaysFresh(sentimentCache, lastFetchTime, cache1, time1, cache0, time0, cacheDuration, s, now);
          }
        }
        forall s | s !in symbols[..i + 1]
          ensures Get(results, s).None? && SameEntry(sentimentCache, lastFetchTime, cache0, time0, s)
        {
          assert s != symbol && s !in symbols[..i];
          assert SameEntry(sentimentCache, lastFetchTime, cache1, time1, s);
        }
        i := i + 1;
      }
      WholePrefix(symbols);
    }

    /** One iteration of `get_sentiment_data`: the cached record while it is
        valid, otherwise a fetched and combined record, which is cached.
        `wasFetched` says which. */
    method LookUp(symbol: string, newsResponse: string -> Result<Json>, now: real, results: Dict<Sentiment>)
      returns (results': Dict<Sentiment>, wasFetched: bool)
      requires cacheDuration > 0.0
      modifies this
      ensures LookedUp(sentimentCache, lastFetchTime, cacheDuration, results', symbol,
                       SentimentFor(old(sentimentCache), old(lastFetchTime), cacheDuration,
                                    newsApiKey, newsResponse, symbol, now), now)
      ensures forall s :: s != symbol ==> Get(results', s) == Get(results, s)
      ensures forall s :: s != symbol ==>
        SameEntry(sentimentCache, lastFetchTime, old(sentimentCache), old(lastFetchTime), s)
      ensures wasFetched <==> !old(IsCacheValid(symbol, now))
      ensures KeptOrStamped(sentimentCache, lastFetchTime, old(sentimentCache), old(lastFetchTime), cacheDuration, symbol, now)
    {
      if IsCacheValid(symbol, now) {
        results' := Put(results, symbol, sentimentCache[symbol]);
        wasFetched := false;
        return;
      }
      var news := FetchNewsSentiment(newsApiKey, newsResponse(symbol));
      var combined := Combine(news, SocialPlaceholder, now);
      results' := Put(results, symbol, combined);
      UpdateCache(symbol, combined, now);
      wasFetched := true;
    }
  }

  /** After a lookup: the results hold `served` for `s`, and so does the
      cache, valid at `now`. */
  ghost predicate LookedUp(cache: map<string, Sentiment>, fetchedAt: map<string, real>, duration: real,
                           results: Dict<Sentiment>, s: string, served: Sentiment, now: real)
  {
    && Get(results, s) == Some(served)
    && FreshIn(cache, fetchedAt, duration, s, now)
    && cache[s] == served
  }

  /** The cache entry of `s` once it has been looked up: a valid entry stays
      as it was, record and fetch time alike; a fetched record is stamped
      `now`. */
  ghost predicate KeptOrStamped(cache: map<string, Sentiment>, fetchedAt: map<string, real>,
                                cache0: map<string, Sentiment>, fetchedAt0: map<string, real>, duration: real,
                                s: string, now: real)
  {
    if FreshIn(cache0, fetchedAt0, duration, s, now) then SameEntry(cache, fetchedAt, cache0, fetchedAt0, s)
    else s in fetchedAt && fetchedAt[s] == now
  }

  /** Looking a symbol up a second time in the same call leaves its entry as
      the first lookup left it, since that entry is valid at `now`. */
  lemma StampedStaysFresh(cache2: map<string, Sentiment>, fetchedAt2: map<string, real>,
                          cache1: map<string, Sentiment>, fetchedAt1: map<string, real>,
                          cache0: map<string, Sentiment>, fetchedAt0: map<string, real>, duration: real,
                          s: string, now: real)
    requires FreshIn(cache1, fetchedAt1, duration, s, now)
    requires KeptOrStamped(cache1, fetchedAt1, cache0, fetchedAt0, duration, s, now)
    requires KeptOrStamped(cache2, fetchedAt2, cache1, fetchedAt1, duration, s, now)
    ensures KeptOrStamped(cache2, fetchedAt2, cache0, fetchedAt0, duration, s, now)
  {
    assert SameEntry(cache2, fetchedAt2, cache1, fetchedAt1, s);
  }

  lemma FramePreservesLookedUp(cache0: map<string, Sentiment>, fetchedAt0: map<string, real>,
                               cache: map<string, Sentiment>, fetchedAt: map<string, real>, duration: real,
                               results0: Dict<Sentiment>, results: Dict<Sentiment>, s: string,
                               served: Sentiment, now: real)
    requires LookedUp(cache0, fetchedAt0, duration, results0, s, served, now)
    requires SameEntry(cache, fetchedAt, cache0, fetchedAt0, s) && Get(results, s) == Get(results0, s)
    ensures LookedUp(cache, fetchedAt, duration, results, s, served, now)
  {
  }
}
