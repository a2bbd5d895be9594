/**
 * The article record. Its identity fields are fixed at construction; the scorer and the
 * topic extractor fill in the label, the score and the topics in place. `ArticleDict` is
 * the dictionary form `to_dict` produces, which is also what the HTTP layer sends back in
 * and rebuilds articles from.
 */
module Articles {
  import opened Wrappers
  import opened Text
  import Sentiment
  import Topics

  /** `to_dict()`: every field except the query engine's `relevance_score`. */
  datatype ArticleDict = ArticleDict(
    title: string,
    summary: string,
    url: string,
    source: string,
    date: Option<string>,
    sentimentLabel: Option<string>,
    sentimentScore: Option<real>,
    topics: seq<string>)

  /** The lexicon scorer's compound score for a text; `None` when it raised. */
  type Scorer = string -> Option<real>

  /** `nltk.word_tokenize`; `None` when the tokenizer or the stopword corpus raised. */
  type Tokenizer = string -> Option<seq<string>>

  /** The text both analyses read: title, one space, summary. */
  function ArticleText(title: string, summary: string): string {
    title + " " + summary
  }

  /**
   * What `extract_topics(num_topics)` stores for an article with text `text`: the topics of
   * the lower-cased, tokenized, filtered text, or nothing if tokenizing raised.
   */
  function TopicsOfText(text: string, numTopics: int, tokenize: Tokenizer, english: set<string>): seq<string> {
    match tokenize(Lower(text))
    case None => []
    case Some(tokens) =>
      Topics.TopicsOf(Topics.FilterTokens(tokens, english + Topics.CUSTOM_STOPWORDS), numTopics)
  }

  class NewsArticle {
    const title: string
    const summary: string
    const url: string
    const source: string
    const date: Option<string>
    var sentimentScore: Option<real>
    var sentimentLabel: Option<string>
    var topics: seq<string>
    /** Set only on the copies the query engine returns. */
    var relevanceScore: Option<nat>

    /** A fresh, unscored article. */
    constructor (title: string, summary: string, url: string, source: string, date: Option<string>)
      ensures this.title == title && this.summary == summary && this.url == url
      ensures this.source == source && this.date == date
      ensures sentimentScore == None && sentimentLabel == None && topics == []
      ensures relevanceScore == None
    {
      this.title, this.summary, this.url, this.source, this.date := title, summary, url, source, date;
      sentimentScore, sentimentLabel, topics, relevanceScore := None, None, [], None;
    }

    /** The reconstruction of an article from its dictionary at the HTTP boundary. */
    constructor FromDict(d: ArticleDict)
      ensures ToDict() == d && relevanceScore == None
    {
      title, summary, url, source, date := d.title, d.summary, d.url, d.source, d.date;
      relevanceScore := None;
      sentimentLabel := d.sentimentLabel;
      sentimentScore := d.sentimentScore;
      topics := d.topics;
    }

    function Text(): string {
      ArticleText(title, summary)
    }

    function ToDict(): ArticleDict
      reads this
    {
      ArticleDict(title, summary, url, source, date, sentimentLabel, sentimentScore, topics)
    }

    /**
     * `analyze_sentiment()`: scores title and summary together, stores the compound score
     * and its label (or neutral and 0 when the scorer raised) and returns both.
     */
    method AnalyzeSentiment(score: Scorer) returns (verdict: string, compound: real)
      modifies this`sentimentLabel, this`sentimentScore
      ensures (verdict, compound) == Sentiment.Outcome(score(Text()))
      ensures sentimentLabel == Some(verdict) && sentimentScore == Some(compound)
      ensures verdict == Sentiment.LabelFor(compound)
    {
      match score(Text()) {
      case Some(c) =>
        sentimentScore := Some(c);
        if c >= Sentiment.THRESHOLD {
          sentimentLabel := Some(Sentiment.POSITIVE);
        } else if c <= -Sentiment.THRESHOLD {
          sentimentLabel := Some(Sentiment.NEGATIVE);
        } else {
          sentimentLabel := Some(Sentiment.NEUTRAL);
        }
      case None =>
        sentimentLabel := Some(Sentiment.NEUTRAL);
        sentimentScore := Some(0.0);
      }
      verdict, compound := sentimentLabel.value, sentimentScore.value;
    }

    /**
     * `extract_topics(num_topics)`: replaces the article's topics with those extracted from
     * its own text and returns them.
     */
    method ExtractTopics(numTopics: int, tokenize: Tokenizer, english: set<string>) returns (r: seq<string>)
      modifies this`topics
      ensures topics == r
      ensures r == TopicsOfText(Text(), numTopics, tokenize, english)
    {
      match tokenize(Lower(Text())) {
      case None =>
        r := [];
      case Some(tokens) =>
        var words := Topics.FilterTokens(tokens, english + Topics.CUSTOM_STOPWORDS);
        r := Topics.ComputeTopics(words, numTopics);
      }
      topics := r;
    }
  }

  /** The dictionaries of a list of articles, `[a.to_dict() for a in articles]`. */
  function Snapshots(articles: seq<NewsArticle>): (r: seq<ArticleDict>)
    reads articles
    ensures |r| == |articles| && forall i :: 0 <= i < |r| ==> r[i] == articles[i].ToDict()
  {
    seq(|articles|, i reads articles requires 0 <= i < |articles| => articles[i].ToDict())
  }

  /** `to_dict` followed by the reconstruction gives back an article with the same dictionary. */
  method RoundTrip(a: NewsArticle) returns (b: NewsArticle)
    ensures fresh(b) && b.ToDict() == a.ToDict() && b.relevanceScore == None
  {
    b := new NewsArticle.FromDict(a.ToDict());
  }
}
