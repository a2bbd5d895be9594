/**
 * The synthetic articles the scraper falls back on when live retrieval fails. They come
 * pre-labelled, cycling positive / neutral / negative, with a score matching the label
 * and a fixed set of five topics.
 */
module Scraper {
  import opened Wrappers
  import opened Text
  import opened Articles
  import Sentiment

  /** `['positive', 'neutral', 'negative'][i % 3]`. */
  function FallbackLabel(i: nat): string {
    if i % 3 == 0 then Sentiment.POSITIVE
    else if i % 3 == 1 then Sentiment.NEUTRAL
    else Sentiment.NEGATIVE
  }

  function FallbackScore(kind: string): real {
    if kind == Sentiment.POSITIVE then 0.3 else if kind == Sentiment.NEGATIVE then -0.3 else 0.0
  }

  function FallbackTopics(kind: string): seq<string> {
    if kind == Sentiment.POSITIVE then ["growth", "revenue", "earnings", "quarterly", "results"]
    else if kind == Sentiment.NEUTRAL then ["product", "announcement", "plans", "initiative", "development"]
    else ["challenges", "international", "strategy", "analysts", "concerns"]
  }

  function FallbackTitle(company: string, i: nat, kind: string): string {
    if kind == Sentiment.POSITIVE then company + " Reports Strong Growth in Q" + NatToString(i % 4 + 1)
    else if kind == Sentiment.NEUTRAL then company + " Announces New Product Line"
    else company + " Faces Challenges in International Markets"
  }

  function FallbackSummary(kind: string): string {
    if kind == Sentiment.POSITIVE then
      "The company announced better than expected results, with revenue up 15% year-over-year."
    else if kind == Sentiment.NEUTRAL then
      "The company revealed its plans for the upcoming fiscal year, including several new initiatives."
    else
      "Analysts express concerns about the company's expansion strategy amid economic uncertainty."
  }

  /** The dictionary of the `i`-th generated article (1-based). */
  function FallbackDict(company: string, i: nat): ArticleDict {
    var kind := FallbackLabel(i);
    ArticleDict(
      FallbackTitle(company, i, kind),
      FallbackSummary(kind),
      "https://example.com/news/" + NatToString(i),
      "Financial News " + NatToString(i % 5 + 1),
      Some("March " + NatToString(i) + ", 2025"),
      Some(kind),
      Some(FallbackScore(kind)),
      FallbackTopics(kind))
  }

  /**
   * Every generated article carries one of the three labels, a score that the labelling
   * rule maps back to that label, and exactly five topics; the labels cycle with period 3.
   */
  lemma {:induction false} FallbackConsistent(i: nat)
    ensures Sentiment.IsLabel(FallbackLabel(i))
    ensures Sentiment.LabelFor(FallbackScore(FallbackLabel(i))) == FallbackLabel(i)
    ensures |FallbackTopics(FallbackLabel(i))| == 5
    ensures FallbackLabel(i + 3) == FallbackLabel(i)
  {
    assert (i + 3) % 3 == i % 3;
  }

  /** The body of the generating loop: one new article, pre-labelled as `FallbackDict` says. */
  method FallbackArticle(company: string, i: nat) returns (article: NewsArticle)
    ensures fresh(article) && article.ToDict() == FallbackDict(company, i)
    ensures article.relevanceScore == None
  {
    var kind := FallbackLabel(i);
    article := new NewsArticle(
      FallbackTitle(company, i, kind),
      FallbackSummary(kind),
      "https://example.com/news/" + NatToString(i),
      "Financial News " + NatToString(i % 5 + 1),
      Some("March " + NatToString(i) + ", 2025"));
    article.sentimentLabel := Some(kind);
    article.sentimentScore := Some(FallbackScore(kind));
    article.topics := FallbackTopics(kind);
  }

  /**
   * `fallback_news_source(company_name, num_articles)`: `num_articles` new, distinct,
   * pre-scored articles (none when the count is not positive), the k-th matching
   * `FallbackDict(company, k + 1)`.
   */
  method FallbackNewsSource(company: string, numArticles: int) returns (articles: seq<NewsArticle>)
    ensures |articles| == if numArticles > 0 then numArticles else 0
    ensures forall k :: 0 <= k < |articles| ==>
      fresh(articles[k]) && articles[k].ToDict() == FallbackDict(company, k + 1)
      && articles[k].relevanceScore == None
    ensures forall j, k :: 0 <= j < k < |articles| ==> articles[j] != articles[k]
  {
    articles := [];
    var i := 1;
    while i <= numArticles
      invariant 1 <= i <= (if numArticles > 0 then numArticles else 0) + 1
      invariant |articles| == i - 1
      invariant forall k :: 0 <= k < |articles| ==>
        fresh(articles[k]) && articles[k].ToDict() == FallbackDict(company, k + 1)
        && articles[k].relevanceScore == None
      invariant forall j, k :: 0 <= j < k < |articles| ==> articles[j] != articles[k]
    {
      var article := FallbackArticle(company, i);
      ghost var before := articles;
      articles := articles + [article];
      forall k | 0 <= k < |articles|
        ensures fresh(articles[k]) && articles[k].relevanceScore == None
        ensures articles[k].ToDict() == FallbackDict(company, k + 1)
      {
        if k < |before| {
          assert articles[k] == before[k];
        }
      }
      i := i + 1;
    }
  }
}
