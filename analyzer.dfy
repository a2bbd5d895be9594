/**
 * The sentiment analyser's batch operations: enriching a list of articles in place
 * (`analyze_articles`), and aggregating a list of scored articles into the comparative
 * report (`generate_comparative_analysis`).
 */
module Analyzer {
  import opened Wrappers
  import opened Sorting
  import opened Articles
  import Sentiment
  import Topics
  import Counter
  import Rounding

  // ------------------------------------------------------------ enrichment

  /** How many topics enrichment asks each article for (`extract_topics()`'s default). */
  const ENRICH_TOPICS: int := 5

  /**
   * What enrichment leaves on an article whose label and score were `label0` and `score0`
   * before: a label that was set stays with its score, a missing one is filled in by the
   * scorer, and the topics are re-extracted from the article's own text.
   */
  predicate Enriched(a: NewsArticle, label0: Option<string>, score0: Option<real>,
                     score: Scorer, tokenize: Tokenizer, english: set<string>)
    reads a
  {
    EnrichedAs(a.sentimentLabel, a.sentimentScore, a.topics, a.Text(), label0, score0, score, tokenize, english)
  }

  /** `Enriched`, on the values of the article's fields. */
  predicate EnrichedAs(name: Option<string>, compound: Option<real>, topics: seq<string>, text: string,
                       label0: Option<string>, score0: Option<real>,
                       score: Scorer, tokenize: Tokenizer, english: set<string>)
  {
    (label0.Some? ==> name == label0 && compound == score0)
    && (label0.None? ==>
          name.Some? && compound.Some? && (name.value, compound.value) == Sentiment.Outcome(score(text)))
    && topics == TopicsOfText(text, ENRICH_TOPICS, tokenize, english)
  }

  /** One pass of the loop body; running it again on an enriched article changes nothing. */
  method EnrichOne(a: NewsArticle, ghost label0: Option<string>, ghost score0: Option<real>,
                   score: Scorer, tokenize: Tokenizer, english: set<string>)
    requires (a.sentimentLabel == label0 && a.sentimentScore == score0)
          || EnrichedAs(a.sentimentLabel, a.sentimentScore, a.topics, a.Text(), label0, score0, score, tokenize, english)
    modifies a`sentimentLabel, a`sentimentScore, a`topics
    ensures EnrichedAs(a.sentimentLabel, a.sentimentScore, a.topics, a.Text(), label0, score0, score, tokenize, english)
  {
    if a.sentimentLabel == None {
      var verdict, compound := a.AnalyzeSentiment(score);
    }
    var topics := a.ExtractTopics(ENRICH_TOPICS, tokenize, english);
  }

  /**
   * The loop's progress after `i` steps: the articles among the first `i` are enriched
   * relative to their labels and scores before the loop, the others still carry them.
   */
  ghost predicate Progress(articles: seq<NewsArticle>, i: nat, label0: map<NewsArticle, Option<string>>,
                           score0: map<NewsArticle, Option<real>>,
                           score: Scorer, tokenize: Tokenizer, english: set<string>)
    requires i <= |articles|
    requires forall a :: a in articles ==> a in label0 && a in score0
    reads articles
  {
    (forall a :: a in articles[..i] ==>
       EnrichedAs(a.sentimentLabel, a.sentimentScore, a.topics, a.Text(), label0[a], score0[a], score, tokenize, english))
    && (forall a :: a in articles && a !in articles[..i] ==>
          a.sentimentLabel == label0[a] && a.sentimentScore == score0[a])
  }

  /** One step of the enrichment loop. */
  method EnrichNext(articles: seq<NewsArticle>, i: nat, a: NewsArticle, ghost label0: map<NewsArticle, Option<string>>,
                    ghost score0: map<NewsArticle, Option<real>>,
                    score: Scorer, tokenize: Tokenizer, english: set<string>)
    requires i < |articles| && a == articles[i]
    requires forall a :: a in articles ==> a in label0 && a in score0
    requires Progress(articles, i, label0, score0, score, tokenize, english)
    modifies a`sentimentLabel, a`sentimentScore, a`topics
    ensures Progress(articles, i + 1, label0, score0, score, tokenize, english)
  {
    if a in articles[..i] {
      assert EnrichedAs(a.sentimentLabel, a.sentimentScore, a.topics, a.Text(), label0[a], score0[a], score, tokenize, english);
    }
    EnrichOne(a, label0[a], score0[a], score, tokenize, english);
    PrefixExtends(articles, i);
    forall b | b in articles[..i + 1]
      ensures EnrichedAs(b.sentimentLabel, b.sentimentScore, b.topics, b.Text(), label0[b], score0[b], score, tokenize, english)
    {
      if b != a {
        assert b in articles[..i];
        assert b.sentimentLabel == old(b.sentimentLabel) && b.sentimentScore == old(b.sentimentScore) && b.topics == old(b.topics);
      }
    }
    forall b | b in articles && b !in articles[..i + 1]
      ensures b.sentimentLabel == label0[b] && b.sentimentScore == score0[b]
    {
      assert b != a && b !in articles[..i];
    }
  }

  /**
   * `analyze_articles(articles)`: scores every article that has no label yet, leaves the
   * label and score of the others alone, and re-extracts the topics of all of them,
   * overwriting whatever topics they carried. The list itself is returned unchanged; an
   * article listed twice is enriched once and then left as it is.
   */
  method AnalyzeArticles(articles: seq<NewsArticle>, score: Scorer, tokenize: Tokenizer, english: set<string>)
    returns (result: seq<NewsArticle>)
    modifies articles
    ensures result == articles
    ensures forall a :: a in articles ==>
      Enriched(a, old(a.sentimentLabel), old(a.sentimentScore), score, tokenize, english)
    ensures forall a :: a in articles ==> a.relevanceScore == old(a.relevanceScore)
  {
    ghost var label0 := map a | a in articles :: a.sentimentLabel;
    ghost var score0 := map a | a in articles :: a.sentimentScore;
    for i := 0 to |articles|
      invariant Progress(articles, i, label0, score0, score, tokenize, english)
      invariant forall a :: a in articles ==> a.relevanceScore == old(a.relevanceScore)
    {
      EnrichNext(articles, i, articles[i], label0, score0, score, tokenize, english);
    }
    assert articles[..|articles|] == articles;
    result := articles;
  }

  // ------------------------------------------------------ the report's parts

  /** One topic's record in `topic_sentiments`. */
  datatype TopicStats = TopicStats(positive: int, neutral: int, negative: int, avgScore: real, count: int)

  const NO_STATS: TopicStats := TopicStats(0, 0, 0, 0.0, 0)

  /** `topic_sentiments`: one record per topic, topics in first-mention order. */
  datatype TopicTable = TopicTable(order: seq<string>, stats: map<string, TopicStats>) {
    ghost predicate Valid() {
      (forall i, j :: 0 <= i < j < |order| ==> order[i] != order[j])
      && (forall t :: t in stats <==> t in order)
    }
  }

  const NO_TOPICS: TopicTable := TopicTable([], map[])

  /** The comparative report, `overall_sentiment` through `topic_sentiment`. */
  datatype Analysis = Analysis(
    overall: string,
    positive: real,
    neutral: real,
    negative: real,
    averageScore: real,
    mostPositive: Option<ArticleDict>,
    mostNegative: Option<ArticleDict>,
    commonTopics: seq<string>,
    topicSentiment: TopicTable)

  const NO_DATA: string := "No data"

  /** The report on an empty list. */
  const EMPTY_REPORT: Analysis :=
    Analysis(NO_DATA, 0.0, 0.0, 0.0, 0.0, None, None, [], NO_TOPICS)

  /** The degraded report when aggregation raised: uniform split, the first and last articles. */
  function Placeholder(first: ArticleDict, last: ArticleDict): Analysis {
    Analysis(Sentiment.NEUTRAL, 33.3, 33.3, 33.3, 0.0, Some(first), Some(last), [], NO_TOPICS)
  }

  /** How many common topics the report lists. */
  const COMMON_TOPICS: nat := 10

  // ------------------------------------------------------------ tallying

  /** The bucket an article's label falls in; anything unexpected counts as neutral. */
  function Bucket(name: Option<string>): (r: string)
    ensures Sentiment.IsLabel(r)
    ensures name.Some? && Sentiment.IsLabel(name.value) ==> r == name.value
  {
    if name.Some? && Sentiment.IsLabel(name.value) then name.value else Sentiment.NEUTRAL
  }

  /** The number of articles whose bucket is `b`. */
  function Tally(ds: seq<ArticleDict>, b: string): (r: nat)
    ensures r <= |ds|
  {
    if ds == [] then 0
    else Tally(ds[..|ds| - 1], b) + (if Bucket(ds[|ds| - 1].sentimentLabel) == b then 1 else 0)
  }

  /** Every article lands in exactly one bucket, so the three counts add up to the list's length. */
  lemma {:induction false} TallySum(ds: seq<ArticleDict>)
    ensures Tally(ds, Sentiment.POSITIVE) + Tally(ds, Sentiment.NEUTRAL) + Tally(ds, Sentiment.NEGATIVE) == |ds|
  {
    if ds != [] {
      TallySum(ds[..|ds| - 1]);
    }
  }

  function ScoreOf(d: ArticleDict): real {
    d.sentimentScore.GetOr(0.0)
  }

  function Sum(ds: seq<ArticleDict>): real {
    if ds == [] then 0.0 else Sum(ds[..|ds| - 1]) + ScoreOf(ds[|ds| - 1])
  }

  /** The keys of a topic record that a label can index: the three labels, `avg_score` and `count`. */
  predicate IsStatKey(name: Option<string>) {
    name.Some? &&
    (Sentiment.IsLabel(name.value) || name.value == "avg_score" || name.value == "count")
  }

  /** Every article has a score, so summing them does not raise. */
  predicate Scored(ds: seq<ArticleDict>) {
    forall k :: 0 <= k < |ds| ==> ds[k].sentimentScore.Some?
  }

  /** Every article with a topic has a label that indexes a topic record, and a score to add. */
  predicate Keyed(ds: seq<ArticleDict>) {
    forall k :: 0 <= k < |ds| && ds[k].topics != [] ==>
      IsStatKey(ds[k].sentimentLabel) && ds[k].sentimentScore.Some?
  }

  /**
   * Where aggregation raises: summing a missing score, or indexing a topic record by a
   * label it has no key for (which needs the article to have a topic).
   */
  predicate Raises(ds: seq<ArticleDict>) {
    !Scored(ds) || !Keyed(ds)
  }

  // ------------------------------------------------------------ topics

  /** `record[label] += 1`, then the score and the count for one mention. */
  function Mention(s: TopicStats, name: string, score: real): TopicStats {
    var bumped :=
      if name == Sentiment.POSITIVE then s.(positive := s.positive + 1)
      else if name == Sentiment.NEUTRAL then s.(neutral := s.neutral + 1)
      else if name == Sentiment.NEGATIVE then s.(negative := s.negative + 1)
      else if name == "avg_score" then s.(avgScore := s.avgScore + 1.0)
      else if name == "count" then s.(count := s.count + 1)
      else s;
    bumped.(avgScore := bumped.avgScore + score, count := bumped.count + 1)
  }

  /** One mention of `topic` by an article with the given label and score. */
  function Record(t: TopicTable, topic: string, name: string, score: real): (r: TopicTable)
    ensures t.Valid() ==> r.Valid()
    ensures r.order == if topic in t.stats then t.order else t.order + [topic]
    ensures topic in r.stats && r.stats == t.stats[topic := r.stats[topic]]
  {
    var s := if topic in t.stats then t.stats[topic] else NO_STATS;
    TopicTable(if topic in t.stats then t.order else t.order + [topic],
               t.stats[topic := Mention(s, name, score)])
  }

  /** The mentions of one article's topics, added in list order. */
  function RecordAll(t: TopicTable, topics: seq<string>, name: string, score: real): (r: TopicTable)
    ensures t.Valid() ==> r.Valid()
  {
    if topics == [] then t
    else Record(RecordAll(t, topics[..|topics| - 1], name, score), topics[|topics| - 1], name, score)
  }

  /** `topic_sentiments` after the aggregation loop, before averaging. */
  function TopicPass(ds: seq<ArticleDict>): (r: TopicTable)
    ensures r.Valid()
  {
    if ds == [] then NO_TOPICS
    else
      var d := ds[|ds| - 1];
      RecordAll(TopicPass(ds[..|ds| - 1]), d.topics, d.sentimentLabel.GetOr(""), ScoreOf(d))
  }

  /** How many times `t` appears in the articles' topic lists, repeats included. */
  function Mentions(ds: seq<ArticleDict>, t: string): nat {
    if ds == [] then 0 else Mentions(ds[..|ds| - 1], t) + multiset(ds[|ds| - 1].topics)[t]
  }

  /** `all_topics`: every mentioned topic, with its number of mentions. */
  function Frequency(ds: seq<ArticleDict>): (r: Counter.Counter)
    ensures r.Valid()
    ensures forall t :: r.Get(t) == Mentions(ds, t)
    ensures forall t :: t in r.count <==> Mentions(ds, t) > 0
  {
    if ds == [] then Counter.Empty()
    else
      Counter.CountAllCounts(Frequency(ds[..|ds| - 1]), ds[|ds| - 1].topics);
      Counter.CountAll(Frequency(ds[..|ds| - 1]), ds[|ds| - 1].topics)
  }

  /** The averaging step for one record: the score sum becomes its mean, to two places. */
  function Averaged(s: TopicStats): TopicStats {
    if s.count > 0 then s.(avgScore := Rounding.Round(s.avgScore / s.count as real, 2)) else s
  }

  function AverageAll(t: TopicTable): TopicTable {
    TopicTable(t.order, map k | k in t.stats :: Averaged(t.stats[k]))
  }

  /** `sorted(all_topics.items(), key=lambda x: x[1], reverse=True)`: ties in first-mention order. */
  function RankedTopics(freq: Counter.Counter): seq<(string, int)>
    requires freq.Valid()
  {
    SortBy(freq.Items(), Topics.ByWeightDesc)
  }

  /** The ten most mentioned topics, most mentioned first, ties in first-mention order. */
  function CommonTopics(freq: Counter.Counter): (r: seq<string>)
    requires freq.Valid()
    ensures |r| <= COMMON_TOPICS
  {
    Counter.Keys(Take(RankedTopics(freq), COMMON_TOPICS))
  }

  /** `round((v / total) * 100, 1)`. */
  function Percent(v: nat, total: nat): real
    requires total > 0
  {
    Rounding.Round(v as real / total as real * 100.0, 1)
  }

  // ------------------------------------------------------------ the report

  /** The report's fields from the loops' results. */
  function Assemble(total: nat, positive: nat, neutral: nat, negative: nat, sum: real,
                    sorted: seq<ArticleDict>, freq: Counter.Counter, table: TopicTable): Analysis
    requires total > 0 && |sorted| > 0 && freq.Valid()
  {
    var mean := sum / total as real;
    Analysis(
      Sentiment.LabelFor(mean),
      Percent(positive, total), Percent(neutral, total), Percent(negative, total),
      Rounding.Round(mean, 2),
      Some(sorted[|sorted| - 1]), Some(sorted[0]),
      CommonTopics(freq), table)
  }

  /** The report on a non-empty list on which nothing raises. */
  function Report(ds: seq<ArticleDict>): Analysis
    requires ds != []
  {
    Assemble(|ds|,
      Tally(ds, Sentiment.POSITIVE), Tally(ds, Sentiment.NEUTRAL), Tally(ds, Sentiment.NEGATIVE),
      Sum(ds), SortBy(ds, ScoreOf), Frequency(ds), AverageAll(TopicPass(ds)))
  }

  /**
   * `generate_comparative_analysis` on the articles' dictionaries: the "No data" report
   * for an empty list, the placeholder when aggregation raises, the full report otherwise.
   * Only the empty list gets "No data"; every other outcome carries one of the three labels.
   */
  function Analyze(ds: seq<ArticleDict>): (r: Analysis)
    ensures ds == [] <==> r.overall == NO_DATA
    ensures ds != [] ==> Sentiment.IsLabel(r.overall)
    ensures ds == [] ==> r == EMPTY_REPORT
    ensures ds != [] && Raises(ds) ==> r == Placeholder(ds[0], ds[|ds| - 1])
    ensures ds != [] && !Raises(ds) ==> r.overall == Sentiment.LabelFor(Sum(ds) / |ds| as real)
  {
    if ds == [] then EMPTY_REPORT
    else if Raises(ds) then Placeholder(ds[0], ds[|ds| - 1])
    else Report(ds)
  }

  // ------------------------------------------------- properties of the report

  /** The superlatives are the ends of the list sorted by score. */
  lemma {:induction false} SuperlativesAreEnds(ds: seq<ArticleDict>)
    requires ds != [] && !Raises(ds)
    ensures var sorted := SortBy(ds, ScoreOf);
      Analyze(ds).mostNegative == Some(sorted[0])
      && Analyze(ds).mostPositive == Some(sorted[|sorted| - 1])
  {
  }

  /**
   * The superlatives: the most negative article scores lowest and the most positive
   * highest, and both are articles of the list.
   */
  lemma {:induction false} SuperlativeBounds(ds: seq<ArticleDict>)
    requires ds != [] && !Raises(ds)
    ensures var r := Analyze(ds);
      r.mostNegative.Some? && r.mostPositive.Some?
      && r.mostNegative.value in ds && r.mostPositive.value in ds
      && forall d :: d in ds ==>
           ScoreOf(r.mostNegative.value) <= ScoreOf(d) <= ScoreOf(r.mostPositive.value)
  {
    SuperlativesAreEnds(ds);
    SortedScoreBounds(ds);
    var sorted := SortBy(ds, ScoreOf);
    assert sorted[0] in multiset(ds) && sorted[|sorted| - 1] in multiset(ds);
  }

  /** Every score lies between the first and the last of the list sorted by score. */
  lemma {:induction false} SortedScoreBounds(ds: seq<ArticleDict>)
    requires ds != []
    ensures var sorted := SortBy(ds, ScoreOf);
      forall d :: d in ds ==> ScoreOf(sorted[0]) <= ScoreOf(d) <= ScoreOf(sorted[|sorted| - 1])
  {
    var sorted := SortBy(ds, ScoreOf);
    forall d | d in ds ensures ScoreOf(sorted[0]) <= ScoreOf(d) <= ScoreOf(sorted[|sorted| - 1]) {
      assert d in multiset(sorted);
      var i :| 0 <= i < |sorted| && sorted[i] == d;
    }
  }

  /** Bounds on every score bound the mean score. */
  lemma {:induction false} MeanWithin(ds: seq<ArticleDict>, lo: real, hi: real)
    requires ds != []
    requires forall d :: d in ds ==> lo <= ScoreOf(d) <= hi
    ensures lo <= Sum(ds) / |ds| as real <= hi
  {
    SumBounds(ds, lo, hi);
    MeanBetween(Sum(ds), |ds|, lo, hi);
  }

  /** The overall label lies between the labels of the two superlatives. */
  lemma {:induction false} OverallBetweenExtremes(ds: seq<ArticleDict>)
    requires ds != [] && !Raises(ds)
    ensures var r := Analyze(ds);
      r.mostNegative.Some? && r.mostPositive.Some?
      && Sentiment.Rank(Sentiment.LabelFor(ScoreOf(r.mostNegative.value)))
        <= Sentiment.Rank(r.overall)
        <= Sentiment.Rank(Sentiment.LabelFor(ScoreOf(r.mostPositive.value)))
  {
    SuperlativeBounds(ds);
    var r := Analyze(ds);
    MeanWithin(ds, ScoreOf(r.mostNegative.value), ScoreOf(r.mostPositive.value));
    var mean := Sum(ds) / |ds| as real;
    Sentiment.LabelMonotone(ScoreOf(r.mostNegative.value), mean);
    Sentiment.LabelMonotone(mean, ScoreOf(r.mostPositive.value));
  }

  lemma {:induction false} MeanBetween(sum: real, n: nat, lo: real, hi: real)
    requires n > 0 && lo * n as real <= sum <= hi * n as real
    ensures lo <= sum / n as real <= hi
  {
    var mean := sum / n as real;
    assert mean * n as real == sum;
  }

  lemma {:induction false} SumBounds(ds: seq<ArticleDict>, lo: real, hi: real)
    requires forall d :: d in ds ==> lo <= ScoreOf(d) <= hi
    ensures lo * |ds| as real <= Sum(ds) <= hi * |ds| as real
  {
    if ds != [] {
      SumBounds(ds[..|ds| - 1], lo, hi);
      assert ds[|ds| - 1] in ds;
    }
  }

  /** Three counts that make up a total have rounded percentages within 0.15 of 100. */
  lemma {:induction false} PercentsNearHundred(p: nat, u: nat, g: nat, total: nat)
    requires total > 0 && p + u + g == total
    ensures 99.85 <= Percent(p, total) + Percent(u, total) + Percent(g, total) <= 100.15
  {
    var n := total as real;
    var a, b, c := p as real / n, u as real / n, g as real / n;
    calc {
      (a + b + c) * n;
      a * n + b * n + c * n;
      p as real + u as real + g as real;
      n;
    }
    assert a + b + c == 1.0;
    assert Rounding.Pow10(1) == 10;
    assert -0.05 <= Percent(p, total) - a * 100.0 <= 0.05;
    assert -0.05 <= Percent(u, total) - b * 100.0 <= 0.05;
    assert -0.05 <= Percent(g, total) - c * 100.0 <= 0.05;
  }

  /** The three percentages are each rounded to a tenth, so together they are within 0.15 of 100. */
  lemma {:induction false} DistributionNearHundred(ds: seq<ArticleDict>)
    requires ds != [] && !Raises(ds)
    ensures var r := Analyze(ds);
      99.85 <= r.positive + r.neutral + r.negative <= 100.15
  {
    TallySum(ds);
    PercentsNearHundred(Tally(ds, Sentiment.POSITIVE), Tally(ds, Sentiment.NEUTRAL),
                        Tally(ds, Sentiment.NEGATIVE), |ds|);
  }

  /**
   * Every article that lists topics carries one of the three labels. The callers only
   * aggregate analysed articles, so this holds for them; it is a precondition of the
   * agreement lemmas, not something the topic pass checks.
   */
  predicate WellLabelled(ds: seq<ArticleDict>) {
    forall k :: 0 <= k < |ds| && ds[k].topics != [] ==>
      ds[k].sentimentLabel.Some? && Sentiment.IsLabel(ds[k].sentimentLabel.value)
  }

  /**
   * The topic records and `all_topics` agree: the same topics, each record's count equal to
   * the topic's number of mentions and to the sum of its three label counts.
   */
  ghost predicate Agree(t: TopicTable, c: Counter.Counter) {
    t.Valid() && c.Valid()
    && (forall k :: k in t.stats <==> k in c.count)
    && (forall k :: k in t.stats ==>
          t.stats[k].count == c.Get(k)
          && t.stats[k].count == t.stats[k].positive + t.stats[k].neutral + t.stats[k].negative)
  }

  lemma {:induction false} RecordAgrees(t: TopicTable, c: Counter.Counter, topic: string, name: string, score: real)
    requires Agree(t, c) && Sentiment.IsLabel(name)
    ensures Agree(Record(t, topic, name, score), c.Add(topic, 1))
  {
  }

  lemma {:induction false} RecordAllAgrees(t: TopicTable, c: Counter.Counter, topics: seq<string>, name: string, score: real)
    requires Agree(t, c) && Sentiment.IsLabel(name)
    ensures Agree(RecordAll(t, topics, name, score), Counter.CountAll(c, topics))
  {
    if topics != [] {
      var init, last := topics[..|topics| - 1], topics[|topics| - 1];
      RecordAllAgrees(t, c, init, name, score);
      RecordAgrees(RecordAll(t, init, name, score), Counter.CountAll(c, init), last, name, score);
    }
  }

  lemma {:induction false} TopicPassAgrees(ds: seq<ArticleDict>)
    requires WellLabelled(ds)
    ensures Agree(TopicPass(ds), Frequency(ds))
  {
    if ds != [] {
      var init, d := ds[..|ds| - 1], ds[|ds| - 1];
      WellLabelledInit(ds);
      TopicPassAgrees(init);
      if d.topics != [] {
        RecordAllAgrees(TopicPass(init), Frequency(init), d.topics, d.sentimentLabel.value, ScoreOf(d));
      }
    }
  }

  /**
   * `topic_sentiment` in the full report: a record for exactly the mentioned topics, whose
   * count is the topic's number of mentions and the sum of its label counts, whose label
   * counts are the mentions by articles with that label, and whose `avg_score` is the mean
   * score of the mentions rounded to two places.
   */
  lemma {:induction false} TopicSentimentCounts(ds: seq<ArticleDict>)
    requires ds != [] && !Raises(ds) && WellLabelled(ds)
    ensures var ts := Analyze(ds).topicSentiment;
      (forall t :: t in ts.stats <==> Mentions(ds, t) > 0)
      && (forall t :: t in ts.stats ==>
            ts.stats[t].count == Mentions(ds, t)
            && ts.stats[t].count == ts.stats[t].positive + ts.stats[t].neutral + ts.stats[t].negative)
    ensures var ts := Analyze(ds).topicSentiment;
      forall t :: t in ts.stats ==>
        ts.stats[t].positive == LabelMentions(ds, t, Sentiment.POSITIVE)
        && ts.stats[t].neutral == LabelMentions(ds, t, Sentiment.NEUTRAL)
        && ts.stats[t].negative == LabelMentions(ds, t, Sentiment.NEGATIVE)
        && ts.stats[t].avgScore == Rounding.Round(ScoreMentions(ds, t) / Mentions(ds, t) as real, 2)
  {
    TopicPassAgrees(ds);
    var raw := TopicPass(ds);
    var ts := Analyze(ds).topicSentiment;
    assert ts == AverageAll(raw);
    forall t | t in ts.stats
      ensures ts.stats[t].positive == LabelMentions(ds, t, Sentiment.POSITIVE)
        && ts.stats[t].neutral == LabelMentions(ds, t, Sentiment.NEUTRAL)
        && ts.stats[t].negative == LabelMentions(ds, t, Sentiment.NEGATIVE)
        && ts.stats[t].avgScore == Rounding.Round(ScoreMentions(ds, t) / Mentions(ds, t) as real, 2)
    {
      TopicRecord(ds, t);
    }
  }

  /** How many times `t` appears in the topic lists of the articles labelled `name`. */
  function LabelMentions(ds: seq<ArticleDict>, t: string, name: string): nat {
    if ds == [] then 0
    else
      var d := ds[|ds| - 1];
      LabelMentions(ds[..|ds| - 1], t, name)
        + (if d.sentimentLabel == Some(name) then multiset(d.topics)[t] else 0)
  }

  /** The scores of the articles mentioning `t`, each counted once per mention. */
  function ScoreMentions(ds: seq<ArticleDict>, t: string): real {
    if ds == [] then 0.0
    else
      var d := ds[|ds| - 1];
      ScoreMentions(ds[..|ds| - 1], t) + multiset(d.topics)[t] as real * ScoreOf(d)
  }

  /** The record of `t` before averaging, as the mentions determine it. */
  function Expected(ds: seq<ArticleDict>, t: string): TopicStats {
    TopicStats(LabelMentions(ds, t, Sentiment.POSITIVE), LabelMentions(ds, t, Sentiment.NEUTRAL),
               LabelMentions(ds, t, Sentiment.NEGATIVE), ScoreMentions(ds, t), Mentions(ds, t))
  }

  /** The record a table holds for `t`; an absent topic reads as the empty record. */
  function StatsOf(table: TopicTable, t: string): TopicStats {
    if t in table.stats then table.stats[t] else NO_STATS
  }

  /** `m` mentions by an article with the given label and score. */
  function Bump(s: TopicStats, name: string, score: real, m: nat): TopicStats
    requires Sentiment.IsLabel(name)
  {
    TopicStats(
      s.positive + (if name == Sentiment.POSITIVE then m else 0),
      s.neutral + (if name == Sentiment.NEUTRAL then m else 0),
      s.negative + (if name == Sentiment.NEGATIVE then m else 0),
      s.avgScore + m as real * score,
      s.count + m)
  }

  /** One mention of `topic` bumps its record once and leaves every other record alone. */
  lemma RecordStats(table: TopicTable, topic: string, name: string, score: real, t: string)
    requires Sentiment.IsLabel(name)
    ensures StatsOf(Record(table, topic, name, score), t)
      == if topic == t then Bump(StatsOf(table, t), name, score, 1) else StatsOf(table, t)
  {
  }

  lemma BumpOnce(s: TopicStats, name: string, score: real, m: nat)
    requires Sentiment.IsLabel(name)
    ensures Bump(Bump(s, name, score, m), name, score, 1) == Bump(s, name, score, m + 1)
  {
    assert (m + 1) as real * score == m as real * score + 1 as real * score;
  }

  /** The occurrences of `t` in a non-empty list: those before the last element, and the last. */
  lemma OccurrencesStep(s: seq<string>, t: string)
    requires s != []
    ensures multiset(s)[t] == multiset(s[..|s| - 1])[t] + (if s[|s| - 1] == t then 1 else 0)
  {
    assert s == s[..|s| - 1] + [s[|s| - 1]];
  }

  /** Recording a list of topics bumps each topic's record by its number of occurrences. */
  lemma {:induction false} RecordAllStats(table: TopicTable, topics: seq<string>, name: string, score: real, t: string)
    requires Sentiment.IsLabel(name)
    ensures StatsOf(RecordAll(table, topics, name, score), t)
      == Bump(StatsOf(table, t), name, score, multiset(topics)[t])
  {
    if topics == [] {
      assert Bump(StatsOf(table, t), name, score, 0) == StatsOf(table, t);
    } else {
      var init, last := topics[..|topics| - 1], topics[|topics| - 1];
      var mid := RecordAll(table, init, name, score);
      var m := multiset(init)[t];
      OccurrencesStep(topics, t);
      assert RecordAll(table, topics, name, score) == Record(mid, last, name, score);
      RecordAllStats(table, init, name, score, t);
      RecordStats(mid, last, name, score, t);
      if last == t {
        BumpOnce(StatsOf(table, t), name, score, m);
      }
    }
  }

  /** One more article bumps the expected record of `t` by that article's mentions of `t`. */
  lemma ExpectedStep(ds: seq<ArticleDict>, t: string)
    requires ds != []
    requires var d := ds[|ds| - 1]; d.sentimentLabel.Some? && Sentiment.IsLabel(d.sentimentLabel.value)
    ensures var d := ds[|ds| - 1];
      Expected(ds, t)
      == Bump(Expected(ds[..|ds| - 1], t), d.sentimentLabel.value, ScoreOf(d), multiset(d.topics)[t])
  {
  }

  /** An article without topics leaves every expected record as it was. */
  lemma ExpectedQuiet(ds: seq<ArticleDict>, t: string)
    requires ds != [] && ds[|ds| - 1].topics == []
    ensures Expected(ds, t) == Expected(ds[..|ds| - 1], t)
  {
    assert multiset(ds[|ds| - 1].topics)[t] == 0;
  }

  lemma WellLabelledInit(ds: seq<ArticleDict>)
    requires ds != [] && WellLabelled(ds)
    ensures WellLabelled(ds[..|ds| - 1])
  {
    var init := ds[..|ds| - 1];
    forall k | 0 <= k < |init| && init[k].topics != []
      ensures init[k].sentimentLabel.Some? && Sentiment.IsLabel(init[k].sentimentLabel.value)
    {
      assert init[k] == ds[k];
    }
  }

  /**
   * Before averaging, each topic's record holds the mentions by positive, neutral and
   * negative articles, the sum of the mentioning articles' scores and the number of mentions.
   */
  lemma {:induction false} TopicPassStats(ds: seq<ArticleDict>, t: string)
    requires WellLabelled(ds)
    ensures StatsOf(TopicPass(ds), t) == Expected(ds, t)
  {
    if ds != [] {
      var init, d := ds[..|ds| - 1], ds[|ds| - 1];
      WellLabelledInit(ds);
      TopicPassStats(init, t);
      if d.topics == [] {
        assert TopicPass(ds) == TopicPass(init);
        ExpectedQuiet(ds, t);
      } else {
        RecordAllStats(TopicPass(init), d.topics, d.sentimentLabel.value, ScoreOf(d), t);
        ExpectedStep(ds, t);
      }
    }
  }

  /**
   * `topic_sentiment[t]` in the full report, for a mentioned topic: each name's count is
   * the number of mentions by articles with that name, `count` is the number of mentions,
   * and `avg_score` is the mean of the mentioning articles' scores rounded to two places.
   */
  lemma {:induction false} TopicRecord(ds: seq<ArticleDict>, t: string)
    requires ds != [] && !Raises(ds) && WellLabelled(ds) && Mentions(ds, t) > 0
    ensures var ts := Analyze(ds).topicSentiment;
      t in ts.stats
      && ts.stats[t].positive == LabelMentions(ds, t, Sentiment.POSITIVE)
      && ts.stats[t].neutral == LabelMentions(ds, t, Sentiment.NEUTRAL)
      && ts.stats[t].negative == LabelMentions(ds, t, Sentiment.NEGATIVE)
      && ts.stats[t].count == Mentions(ds, t)
      && ts.stats[t].avgScore == Rounding.Round(ScoreMentions(ds, t) / Mentions(ds, t) as real, 2)
  {
    TopicPassAgrees(ds);
    TopicPassStats(ds, t);
    var raw := TopicPass(ds);
    assert t in raw.stats && raw.stats[t] == Expected(ds, t);
    assert Analyze(ds).topicSentiment == AverageAll(raw);
  }

  /**
   * `common_topics`: the first ten topics of the ranking (all of them when there are fewer),
   * each a mentioned topic listed once, in non-increasing order of mentions.
   */
  lemma {:induction false} CommonTopicsProperties(freq: Counter.Counter)
    requires freq.Valid()
    ensures var r := CommonTopics(freq);
      |r| == (if |freq.order| < COMMON_TOPICS then |freq.order| else COMMON_TOPICS)
      && Distinct(r)
      && (forall i :: 0 <= i < |r| ==> r[i] in freq.count)
      && (forall i, j :: 0 <= i < j < |r| ==> freq.Get(r[i]) >= freq.Get(r[j]))
  {
    var ranked := RankedTopics(freq);
    var r := CommonTopics(freq);
    RankedTopicsSound(freq);
    RankedTopicsDistinct(freq);
    forall i | 0 <= i < |r| ensures r[i] in freq.count {
      CommonEntry(freq, i);
    }
    forall i, j | 0 <= i < j < |r| ensures r[i] != r[j] && freq.Get(r[i]) >= freq.Get(r[j]) {
      CommonEntry(freq, i);
      CommonEntry(freq, j);
      assert Topics.ByWeightDesc(ranked[i]) <= Topics.ByWeightDesc(ranked[j]);
    }
  }

  /** No topic left out of `common_topics` is mentioned more often than one kept. */
  lemma {:induction false} CommonTopicsMostMentioned(freq: Counter.Counter)
    requires freq.Valid()
    ensures var r := CommonTopics(freq);
      forall t, i :: t in freq.count && t !in r && 0 <= i < |r| ==> freq.Get(r[i]) >= freq.Get(t)
  {
    var ranked := RankedTopics(freq);
    var r := CommonTopics(freq);
    RankedTopicsSound(freq);
    RankedTopicsComplete(freq);
    forall t, i | t in freq.count && t !in r && 0 <= i < |r| ensures freq.Get(r[i]) >= freq.Get(t) {
      var k :| 0 <= k < |ranked| && ranked[k] == (t, freq.Get(t));
      Counter.KeyListed(Take(ranked, COMMON_TOPICS), k);
      CommonEntry(freq, i);
      assert Topics.ByWeightDesc(ranked[i]) <= Topics.ByWeightDesc(ranked[k]);
    }
  }

  /** The `i`-th common topic is the topic of the `i`-th ranked pair. */
  lemma CommonEntry(freq: Counter.Counter, i: int)
    requires freq.Valid() && 0 <= i < |CommonTopics(freq)|
    ensures i < |RankedTopics(freq)| && CommonTopics(freq)[i] == RankedTopics(freq)[i].0
    ensures RankedTopics(freq)[i] in RankedTopics(freq)
  {
    var ranked := RankedTopics(freq);
    assert Take(ranked, COMMON_TOPICS)[i] == ranked[i];
  }

  /** Every ranked pair is a topic with its number of mentions. */
  lemma RankedTopicsSound(freq: Counter.Counter)
    requires freq.Valid()
    ensures forall p :: p in RankedTopics(freq) ==> p.0 in freq.count && p.1 == freq.Get(p.0)
  {
    var items := freq.Items();
    forall p | p in RankedTopics(freq) ensures p.0 in freq.count && p.1 == freq.Get(p.0) {
      assert p in multiset(items);
      var i :| 0 <= i < |items| && items[i] == p;
    }
  }

  /** Every mentioned topic is ranked, with its number of mentions. */
  lemma RankedTopicsComplete(freq: Counter.Counter)
    requires freq.Valid()
    ensures forall t :: t in freq.count ==> (t, freq.Get(t)) in RankedTopics(freq)
  {
    var items := freq.Items();
    forall t | t in freq.count ensures (t, freq.Get(t)) in RankedTopics(freq) {
      var i :| 0 <= i < |freq.order| && freq.order[i] == t;
      assert items[i] == (t, freq.Get(t));
      assert items[i] in multiset(items);
      assert items[i] in multiset(RankedTopics(freq));
    }
  }

  /** The ranking lists each topic once. */
  lemma RankedTopicsDistinct(freq: Counter.Counter)
    requires freq.Valid()
    ensures |RankedTopics(freq)| == |freq.order| && Distinct(RankedTopics(freq))
  {
    var items := freq.Items();
    forall i, j | 0 <= i < j < |items| ensures items[i] != items[j] {
      assert items[i].0 == freq.order[i] && items[j].0 == freq.order[j];
    }
    assert |multiset(items)| == |multiset(RankedTopics(freq))|;
    PermutationDistinct(items, RankedTopics(freq));
  }


  /** The tallying loop: each article's label counted in its bucket. */
  method TallyLabels(articles: seq<NewsArticle>) returns (positive: nat, neutral: nat, negative: nat)
    ensures positive == Tally(Snapshots(articles), Sentiment.POSITIVE)
    ensures neutral == Tally(Snapshots(articles), Sentiment.NEUTRAL)
    ensures negative == Tally(Snapshots(articles), Sentiment.NEGATIVE)
  {
    ghost var ds := Snapshots(articles);
    positive, neutral, negative := 0, 0, 0;
    for i := 0 to |articles|
      invariant positive == Tally(ds[..i], Sentiment.POSITIVE)
      invariant neutral == Tally(ds[..i], Sentiment.NEUTRAL)
      invariant negative == Tally(ds[..i], Sentiment.NEGATIVE)
    {
      var name := articles[i].sentimentLabel;
      assert ds[i] == articles[i].ToDict();
      TallyStep(ds, i);
      if name == Some(Sentiment.POSITIVE) {
        positive := positive + 1;
      } else if name == Some(Sentiment.NEGATIVE) {
        negative := negative + 1;
      } else {
        neutral := neutral + 1;
      }
    }
    assert ds[..|articles|] == ds;
  }

  /** One more article adds one to its own bucket's tally and nothing to the others. */
  lemma TallyStep(ds: seq<ArticleDict>, i: nat)
    requires i < |ds|
    ensures forall b :: Tally(ds[..i + 1], b) == Tally(ds[..i], b) + (if Bucket(ds[i].sentimentLabel) == b then 1 else 0)
  {
    assert ds[..i + 1][..i] == ds[..i];
  }

  /** `sum(a.sentiment_score for a in articles)`; `complete` is false where Python's `sum` raises. */
  method SumScores(articles: seq<NewsArticle>) returns (complete: bool, sum: real)
    ensures complete <==> Scored(Snapshots(articles))
    ensures complete ==> sum == Sum(Snapshots(articles))
  {
    ghost var ds := Snapshots(articles);
    sum := 0.0;
    for i := 0 to |articles|
      invariant sum == Sum(ds[..i])
      invariant Scored(ds[..i])
    {
      match articles[i].sentimentScore {
        case None =>
          assert ds[i].sentimentScore.None?;
          return false, sum;
        case Some(x) =>
          sum := sum + x;
      }
      assert ds[..i + 1][..i] == ds[..i];
    }
    assert ds[..|articles|] == ds;
    complete := true;
  }

  /**
   * The inner topic loop for one article; `ok` is false where the article has a topic and
   * its label does not index a topic record or its score is missing.
   */
  method CountArticleTopics(freq0: Counter.Counter, table0: TopicTable, topics: seq<string>,
                            name: Option<string>, score: Option<real>)
    returns (ok: bool, freq: Counter.Counter, table: TopicTable)
    ensures ok <==> topics == [] || (IsStatKey(name) && score.Some?)
    ensures ok ==> freq == Counter.CountAll(freq0, topics)
    ensures ok ==> table == RecordAll(table0, topics, name.GetOr(""), score.GetOr(0.0))
  {
    freq, table := freq0, table0;
    var usable := IsStatKey(name) && score.Some?;
    var key, value := name.GetOr(""), score.GetOr(0.0);
    for j := 0 to |topics|
      invariant freq == Counter.CountAll(freq0, topics[..j])
      invariant table == RecordAll(table0, topics[..j], key, value)
      invariant j > 0 ==> usable
    {
      freq := freq.Add(topics[j], 1);
      if !usable {
        return false, freq, table;
      }
      table := Record(table, topics[j], key, value);
      assert topics[..j + 1][..j] == topics[..j];
    }
    assert topics[..|topics|] == topics;
    ok := true;
  }

  /**
   * The topic loop: every mention counted in `all_topics` and recorded under the
   * article's label in `topic_sentiments`; `complete` is false where a label has no key
   * in the record, or a score is missing, and the update raises.
   */
  method CountTopics(articles: seq<NewsArticle>) returns (complete: bool, freq: Counter.Counter, table: TopicTable)
    ensures complete <==> Keyed(Snapshots(articles))
    ensures complete ==> freq == Frequency(Snapshots(articles)) && table == TopicPass(Snapshots(articles))
  {
    ghost var ds := Snapshots(articles);
    freq := Counter.Empty();
    table := NO_TOPICS;
    for i := 0 to |articles|
      invariant freq == Frequency(ds[..i]) && table == TopicPass(ds[..i])
      invariant Keyed(ds[..i])
    {
      var a := articles[i];
      ghost var d := ds[i];
      assert d == a.ToDict();
      var ok;
      ok, freq, table := CountArticleTopics(freq, table, a.topics, a.sentimentLabel, a.sentimentScore);
      TopicStep(ds, i);
      KeyedStep(ds, i);
      if !ok {
        return false, freq, table;
      }
    }
    assert ds[..|articles|] == ds;
    complete := true;
  }

  /** One more article: its topics are counted and recorded. */
  lemma TopicStep(ds: seq<ArticleDict>, i: nat)
    requires i < |ds|
    ensures Frequency(ds[..i + 1]) == Counter.CountAll(Frequency(ds[..i]), ds[i].topics)
    ensures TopicPass(ds[..i + 1])
         == RecordAll(TopicPass(ds[..i]), ds[i].topics, ds[i].sentimentLabel.GetOr(""), ScoreOf(ds[i]))
  {
    assert ds[..i + 1][..i] == ds[..i];
  }

  /** One more article is keyed exactly when it has no topic or a usable label and score. */
  lemma KeyedStep(ds: seq<ArticleDict>, i: nat)
    requires i < |ds|
    ensures Keyed(ds[..i + 1])
        <==> Keyed(ds[..i]) && (ds[i].topics == [] || (IsStatKey(ds[i].sentimentLabel) && ds[i].sentimentScore.Some?))
    ensures !Keyed(ds[..i + 1]) ==> !Keyed(ds)
  {
    var p, q := ds[..i], ds[..i + 1];
    assert forall k :: 0 <= k < i ==> q[k] == p[k];
    assert q[i] == ds[i];
    if !Keyed(q) {
      var k :| 0 <= k < |q| && q[k].topics != [] && !(IsStatKey(q[k].sentimentLabel) && q[k].sentimentScore.Some?);
      assert ds[k] == q[k];
    }
  }

  /** The averaging loop over `topic_sentiments.items()`. */
  method AverageTopics(raw: TopicTable) returns (table: TopicTable)
    requires raw.Valid()
    ensures table == AverageAll(raw)
  {
    table := raw;
    for k := 0 to |raw.order|
      invariant table.order == raw.order && table.stats.Keys == raw.stats.Keys
      invariant forall t :: t in raw.stats ==>
        table.stats[t] == if t in raw.order[..k] then Averaged(raw.stats[t]) else raw.stats[t]
    {
      var t := raw.order[k];
      var data := table.stats[t];
      if data.count > 0 {
        table := table.(stats := table.stats[t := data.(avgScore := Rounding.Round(data.avgScore / data.count as real, 2))]);
      }
      assert raw.order[..k + 1] == raw.order[..k] + [t];
    }
    assert raw.order[..|raw.order|] == raw.order;
  }

  /** The report's assembly once every loop has run through without raising. */
  method Finish(articles: seq<NewsArticle>, positive: nat, neutral: nat, negative: nat, sum: real,
                freq: Counter.Counter, raw: TopicTable)
    returns (r: Analysis)
    requires articles != []
    requires positive == Tally(Snapshots(articles), Sentiment.POSITIVE)
    requires neutral == Tally(Snapshots(articles), Sentiment.NEUTRAL)
    requires negative == Tally(Snapshots(articles), Sentiment.NEGATIVE)
    requires sum == Sum(Snapshots(articles))
    requires freq == Frequency(Snapshots(articles)) && raw == TopicPass(Snapshots(articles))
    ensures r == Report(Snapshots(articles))
  {
    var table := AverageTopics(raw);
    var sorted := SortBy(Snapshots(articles), ScoreOf);
    r := Assemble(|articles|, positive, neutral, negative, sum, sorted, freq, table);
  }

  /**
   * `generate_comparative_analysis(articles)`: the "No data" report for an empty list,
   * the placeholder as soon as a step raises, the full report otherwise.
   */
  method GenerateComparativeAnalysis(articles: seq<NewsArticle>) returns (r: Analysis)
    ensures r == Analyze(Snapshots(articles))
  {
    if |articles| == 0 {
      return EMPTY_REPORT;
    }
    ghost var ds := Snapshots(articles);
    var total := |articles|;
    var placeholder := Placeholder(articles[0].ToDict(), articles[total - 1].ToDict());
    assert placeholder == Placeholder(ds[0], ds[|ds| - 1]);
    var positive, neutral, negative := TallyLabels(articles);
    var scored, sum := SumScores(articles);
    if !scored {
      assert !Scored(ds);
      return placeholder;
    }
    var keyed, freq, raw := CountTopics(articles);
    if !keyed {
      assert !Keyed(ds);
      return placeholder;
    }
    r := Finish(articles, positive, neutral, negative, sum, freq, raw);
  }
}
