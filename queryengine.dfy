/**
 * The article query engine: a keyword search that ranks matching articles by how often
 * the query's words occur in them, and two filters, by label and by topic. The HTTP
 * layer rebuilds articles from their dictionaries, applies the search, then the label
 * filter, then the topic filter, and sends back the dictionaries of what is left.
 */
module QueryEngine {
  import opened Wrappers
  import opened Text
  import opened Sorting
  import opened Articles

  // ------------------------------------------------------------ relevance

  /** `query_text.lower().split()`: non-empty words. */
  function Terms(query: string): (r: seq<string>)
    ensures forall k :: 0 <= k < |r| ==> |r[k]| > 0
  {
    Split(Lower(query))
  }

  /** `sum(text.count(term) for term in terms)`. */
  function Relevance(text: string, terms: seq<string>): nat
    requires forall k :: 0 <= k < |terms| ==> |terms[k]| > 0
  {
    if terms == [] then 0
    else Relevance(text, terms[..|terms| - 1]) + Count(text, terms[|terms| - 1])
  }

  /** An article is relevant exactly when one of the query's words occurs in its text. */
  lemma {:induction false} RelevancePositive(text: string, terms: seq<string>)
    requires forall k :: 0 <= k < |terms| ==> |terms[k]| > 0
    ensures Relevance(text, terms) > 0 <==> exists k :: 0 <= k < |terms| && IsSubstring(terms[k], text)
  {
    if terms != [] {
      var init, last := terms[..|terms| - 1], terms[|terms| - 1];
      RelevancePositive(text, init);
      CountPositiveIffSubstring(text, last);
      if exists k :: 0 <= k < |init| && IsSubstring(init[k], text) {
        var k :| 0 <= k < |init| && IsSubstring(init[k], text);
        assert terms[k] == init[k];
      }
      if exists k :: 0 <= k < |terms| && IsSubstring(terms[k], text) {
        var k :| 0 <= k < |terms| && IsSubstring(terms[k], text);
        if k < |init| {
          assert init[k] == terms[k];
        }
      }
    }
  }

  /** The relevance of an article, from its lower-cased title and summary. */
  function RelevanceOf(d: ArticleDict, terms: seq<string>): nat
    requires forall k :: 0 <= k < |terms| ==> |terms[k]| > 0
  {
    Relevance(Lower(ArticleText(d.title, d.summary)), terms)
  }

  // ------------------------------------------------------------ the search

  /** The sort key of `results.sort(key=lambda x: x.relevance_score, reverse=True)`. */
  function ByRelevanceDesc<T>(h: (T, nat)): real {
    -(h.1 as real)
  }

  /** The relevant articles in input order, each with its relevance. */
  function Matches(ds: seq<ArticleDict>, terms: seq<string>): (r: seq<(ArticleDict, nat)>)
    requires forall k :: 0 <= k < |terms| ==> |terms[k]| > 0
    ensures forall h :: h in r <==> h.0 in ds && h.1 == RelevanceOf(h.0, terms) && h.1 > 0
  {
    if ds == [] then []
    else
      var d := ds[|ds| - 1];
      assert ds == ds[..|ds| - 1] + [d];
      Matches(ds[..|ds| - 1], terms) + Hit(d, terms)
  }

  /** The match one dictionary contributes: itself with its relevance, if that is positive. */
  function Hit(d: ArticleDict, terms: seq<string>): seq<(ArticleDict, nat)>
    requires forall k :: 0 <= k < |terms| ==> |terms[k]| > 0
  {
    if RelevanceOf(d, terms) > 0 then [(d, RelevanceOf(d, terms))] else []
  }

  /** What a non-empty search over a non-empty list returns: the matches, most relevant first. */
  function Ranking(ds: seq<ArticleDict>, terms: seq<string>): seq<(ArticleDict, nat)>
    requires forall k :: 0 <= k < |terms| ==> |terms[k]| > 0
  {
    SortBy(Matches(ds, terms), ByRelevanceDesc)
  }

  /**
   * The ranking holds exactly the relevant articles, each with its relevance, most
   * relevant first; articles of equal relevance keep their input order.
   */
  lemma {:induction false} RankingProperties(ds: seq<ArticleDict>, terms: seq<string>)
    requires forall k :: 0 <= k < |terms| ==> |terms[k]| > 0
    ensures var r := Ranking(ds, terms);
      (forall h :: h in r <==> h.0 in ds && h.1 == RelevanceOf(h.0, terms) && h.1 > 0)
      && (forall i, j :: 0 <= i < j < |r| ==> r[i].1 >= r[j].1)
      && (forall v :: WithKey(r, ByRelevanceDesc, v) == WithKey(Matches(ds, terms), ByRelevanceDesc, v))
  {
    var m := Matches(ds, terms);
    var r := Ranking(ds, terms);
    forall h ensures h in r <==> h in m {
      assert h in r <==> h in multiset(r);
      assert h in m <==> h in multiset(m);
    }
    forall i, j | 0 <= i < j < |r| ensures r[i].1 >= r[j].1 {
      assert ByRelevanceDesc(r[i]) <= ByRelevanceDesc(r[j]);
    }
    forall v ensures WithKey(r, ByRelevanceDesc, v) == WithKey(m, ByRelevanceDesc, v) {
      SortByStable(m, ByRelevanceDesc, v);
    }
  }

  /** A list of articles as the dictionaries and relevance scores the search leaves on them. */
  function Tagged(xs: seq<NewsArticle>): (r: seq<(ArticleDict, nat)>)
    reads xs
    ensures |r| == |xs|
    ensures forall k :: 0 <= k < |xs| ==> r[k] == (xs[k].ToDict(), xs[k].relevanceScore.GetOr(0))
  {
    seq(|xs|, k reads xs requires 0 <= k < |xs| => (xs[k].ToDict(), xs[k].relevanceScore.GetOr(0)))
  }

  /** The copy `query_articles` makes of a relevant article, carrying its relevance. */
  method CopyWithRelevance(a: NewsArticle, relevance: nat) returns (c: NewsArticle)
    ensures fresh(c) && c.ToDict() == a.ToDict() && c.relevanceScore == Some(relevance)
  {
    c := new NewsArticle(a.title, a.summary, a.url, a.source, a.date);
    c.sentimentLabel := a.sentimentLabel;
    c.sentimentScore := a.sentimentScore;
    c.topics := a.topics;
    c.relevanceScore := Some(relevance);
  }

  /** Scanning one more dictionary appends its hit, if it has one. */
  lemma {:induction false} MatchesStep(ds: seq<ArticleDict>, i: nat, terms: seq<string>)
    requires i < |ds|
    requires forall k :: 0 <= k < |terms| ==> |terms[k]| > 0
    ensures Matches(ds[..i + 1], terms) == Matches(ds[..i], terms) + Hit(ds[i], terms)
  {
    assert ds[..i + 1][..i] == ds[..i];
  }

  /** The body of the scanning loop: a fresh copy of `a` carrying its relevance, if it is relevant. */
  method MatchOne(a: NewsArticle, terms: seq<string>) returns (hit: seq<(NewsArticle, nat)>)
    requires forall k :: 0 <= k < |terms| ==> |terms[k]| > 0
    ensures |hit| == |Hit(a.ToDict(), terms)|
    ensures forall k :: 0 <= k < |hit| ==>
      fresh(hit[k].0) && hit[k].0.relevanceScore == Some(hit[k].1)
      && (hit[k].0.ToDict(), hit[k].1) == Hit(a.ToDict(), terms)[k]
  {
    var relevance := Relevance(Lower(a.Text()), terms);
    if relevance > 0 {
      var copy := CopyWithRelevance(a, relevance);
      hit := [(copy, relevance)];
    } else {
      hit := [];
    }
  }

  /** The scanning loop: a fresh copy of every relevant article, in input order. */
  method CollectMatches(articles: seq<NewsArticle>, terms: seq<string>) returns (hits: seq<(NewsArticle, nat)>)
    requires forall k :: 0 <= k < |terms| ==> |terms[k]| > 0
    ensures |hits| == |Matches(Snapshots(articles), terms)|
    ensures forall k :: 0 <= k < |hits| ==>
      fresh(hits[k].0) && hits[k].0.relevanceScore == Some(hits[k].1)
      && (hits[k].0.ToDict(), hits[k].1) == Matches(Snapshots(articles), terms)[k]
  {
    ghost var ds := Snapshots(articles);
    ghost var want: seq<(ArticleDict, nat)> := [];
    hits := [];
    for i := 0 to |articles|
      invariant want == Matches(ds[..i], terms) && |hits| == |want|
      invariant forall k :: 0 <= k < |hits| ==>
        fresh(hits[k].0) && hits[k].0.relevanceScore == Some(hits[k].1)
        && (hits[k].0.ToDict(), hits[k].1) == want[k]
    {
      var hit := MatchOne(articles[i], terms);
      MatchesStep(ds, i, terms);
      assert articles[i].ToDict() == ds[i];
      ghost var step := Hit(ds[i], terms);
      forall k | 0 <= k < |hits + hit|
        ensures fresh((hits + hit)[k].0) && (hits + hit)[k].0.relevanceScore == Some((hits + hit)[k].1)
          && ((hits + hit)[k].0.ToDict(), (hits + hit)[k].1) == (want + step)[k]
      {
        if k < |hits| {
          assert (hits + hit)[k] == hits[k] && (want + step)[k] == want[k];
        } else {
          assert (hits + hit)[k] == hit[k - |hits|] && (want + step)[k] == step[k - |hits|];
        }
      }
      hits, want := hits + hit, want + step;
    }
    assert ds[..|articles|] == ds;
  }

  /**
   * `query_articles(articles, query_text)`: the list itself when the query or the list is
   * empty; otherwise fresh copies of the relevant articles, each carrying its relevance,
   * in the order of `Ranking`.
   */
  method QueryArticles(articles: seq<NewsArticle>, query: string) returns (results: seq<NewsArticle>)
    ensures query == "" || articles == [] ==> results == articles
    ensures query != "" && articles != [] ==>
      (forall k :: 0 <= k < |results| ==> fresh(results[k]) && results[k].relevanceScore.Some?)
      && Tagged(results) == Ranking(Snapshots(articles), Terms(query))
  {
    if query == "" || |articles| == 0 {
      return articles;
    }
    var terms := Terms(query);
    var hits := CollectMatches(articles, terms);
    var sorted := SortBy(hits, ByRelevanceDesc);
    results := seq(|sorted|, k requires 0 <= k < |sorted| => sorted[k].0);
    RankHits(hits, Matches(Snapshots(articles), terms), sorted, results);
  }

  /** Sorting the hits is sorting their dictionaries: the objects only come along. */
  lemma {:induction false} RankHits(hits: seq<(NewsArticle, nat)>, want: seq<(ArticleDict, nat)>,
                                    sorted: seq<(NewsArticle, nat)>, results: seq<NewsArticle>)
    requires |hits| == |want|
    requires forall k :: 0 <= k < |hits| ==>
      hits[k].0.relevanceScore == Some(hits[k].1) && (hits[k].0.ToDict(), hits[k].1) == want[k]
    requires sorted == SortBy(hits, ByRelevanceDesc)
    requires |results| == |sorted| && forall k :: 0 <= k < |sorted| ==> results[k] == sorted[k].0
    ensures forall k :: 0 <= k < |results| ==> exists j :: 0 <= j < |hits| && results[k] == hits[j].0
    ensures forall k :: 0 <= k < |results| ==> results[k].relevanceScore.Some?
    ensures Tagged(results) == SortBy(want, ByRelevanceDesc)
  {
    var blank := ArticleDict("", "", "", "", None, None, None, []);
    var m := map h | h in hits :: h.0.ToDict();
    var f := (h: (NewsArticle, nat)) => (if h in m then m[h] else blank, h.1);
    forall k | 0 <= k < |hits| ensures f(hits[k]) == want[k] {
      assert hits[k] in m;
    }
    assert MapSeq(hits, f) == want;
    SortByMap(hits, f, ByRelevanceDesc, ByRelevanceDesc);
    forall k | 0 <= k < |sorted|
      ensures exists j :: 0 <= j < |hits| && sorted[k] == hits[j]
      ensures f(sorted[k]) == (results[k].ToDict(), results[k].relevanceScore.GetOr(0))
    {
      assert sorted[k] in multiset(hits);
      var j :| 0 <= j < |hits| && sorted[k] == hits[j];
      assert sorted[k] in m;
    }
    assert MapSeq(sorted, f) == Tagged(results);
  }

  // ------------------------------------------------------------ the filters

  /** The test of `filter_by_sentiment`, on an article's dictionary. */
  function HasLabel(sentiment: string): ArticleDict -> bool {
    (d: ArticleDict) => d.sentimentLabel == Some(sentiment)
  }

  /** The test of `filter_by_topic`, on an article's dictionary. */
  function HasTopic(topic: string): ArticleDict -> bool {
    (d: ArticleDict) => topic in d.topics
  }

  /** `[a for a in articles if a.sentiment_label == sentiment]`. */
  function WithLabel(articles: seq<NewsArticle>, sentiment: string): (r: seq<NewsArticle>)
    reads articles
    ensures forall k :: 0 <= k < |r| ==> r[k] in articles && r[k].sentimentLabel == Some(sentiment)
    ensures forall k :: 0 <= k < |articles| && articles[k].sentimentLabel == Some(sentiment) ==> articles[k] in r
    ensures SubsequenceOf(r, articles)
  {
    if articles == [] then []
    else
      var init, a := articles[..|articles| - 1], articles[|articles| - 1];
      assert articles == init + [a];
      var r0 := WithLabel(init, sentiment);
      if a.sentimentLabel == Some(sentiment) then
        assert (r0 + [a])[..|r0|] == r0;
        r0 + [a]
      else r0
  }

  /** `[a for a in articles if topic in a.topics]`. */
  function WithTopic(articles: seq<NewsArticle>, topic: string): (r: seq<NewsArticle>)
    reads articles
    ensures forall k :: 0 <= k < |r| ==> r[k] in articles && topic in r[k].topics
    ensures forall k :: 0 <= k < |articles| && topic in articles[k].topics ==> articles[k] in r
    ensures SubsequenceOf(r, articles)
  {
    if articles == [] then []
    else
      var init, a := articles[..|articles| - 1], articles[|articles| - 1];
      assert articles == init + [a];
      var r0 := WithTopic(init, topic);
      if topic in a.topics then
        assert (r0 + [a])[..|r0|] == r0;
        r0 + [a]
      else r0
  }

  /**
   * The articles `WithLabel` keeps have, position by position, the dictionaries of the articles
   * with the label: none is dropped, none repeated.
   */
  lemma {:induction false} WithLabelDicts(articles: seq<NewsArticle>, sentiment: string)
    ensures Snapshots(WithLabel(articles, sentiment)) == Filter(Snapshots(articles), HasLabel(sentiment))
  {
    if articles != [] {
      var init, a := articles[..|articles| - 1], articles[|articles| - 1];
      WithLabelDicts(init, sentiment);
      assert Snapshots(articles)[..|init|] == Snapshots(init);
      var r0 := WithLabel(init, sentiment);
      if a.sentimentLabel == Some(sentiment) {
        assert WithLabel(articles, sentiment) == r0 + [a];
        assert Snapshots(r0 + [a]) == Snapshots(r0) + [a.ToDict()];
      } else {
        assert WithLabel(articles, sentiment) == r0;
      }
    }
  }

  /**
   * The articles `WithTopic` keeps have, position by position, the dictionaries of the articles
   * with the topic: none is dropped, none repeated.
   */
  lemma {:induction false} WithTopicDicts(articles: seq<NewsArticle>, topic: string)
    ensures Snapshots(WithTopic(articles, topic)) == Filter(Snapshots(articles), HasTopic(topic))
  {
    if articles != [] {
      var init, a := articles[..|articles| - 1], articles[|articles| - 1];
      WithTopicDicts(init, topic);
      assert Snapshots(articles)[..|init|] == Snapshots(init);
      var r0 := WithTopic(init, topic);
      if topic in a.topics {
        assert WithTopic(articles, topic) == r0 + [a];
        assert Snapshots(r0 + [a]) == Snapshots(r0) + [a.ToDict()];
      } else {
        assert WithTopic(articles, topic) == r0;
      }
    }
  }

  /** A filter argument that switches the filter off: empty or `"all"`. */
  predicate Off(filter: string) {
    filter == "" || filter == "all"
  }

  /**
   * `filter_by_sentiment(articles, sentiment)`: the list itself when the filter is off,
   * otherwise exactly the articles with that label, in their order.
   */
  function FilterBySentiment(articles: seq<NewsArticle>, sentiment: string): (r: seq<NewsArticle>)
    reads articles
    ensures Off(sentiment) ==> r == articles
    ensures !Off(sentiment) ==> r == WithLabel(articles, sentiment)
    ensures SubsequenceOf(r, articles)
  {
    if Off(sentiment) then SubsequenceOfItself(articles); articles else WithLabel(articles, sentiment)
  }

  /**
   * `filter_by_topic(articles, topic)`: the list itself when the filter is off, otherwise
   * exactly the articles listing that topic, in their order.
   */
  function FilterByTopic(articles: seq<NewsArticle>, topic: string): (r: seq<NewsArticle>)
    reads articles
    ensures Off(topic) ==> r == articles
    ensures !Off(topic) ==> r == WithTopic(articles, topic)
    ensures SubsequenceOf(r, articles)
  {
    if Off(topic) then SubsequenceOfItself(articles); articles else WithTopic(articles, topic)
  }

  lemma {:induction false} SubsequenceOfItself<T>(s: seq<T>)
    ensures SubsequenceOf(s, s)
  {
    if s != [] {
      SubsequenceOfItself(s[..|s| - 1]);
    }
  }

  /** Filtering a list in which every article passes gives the list back. */
  lemma {:induction false} WithLabelAll(articles: seq<NewsArticle>, sentiment: string)
    requires forall k :: 0 <= k < |articles| ==> articles[k].sentimentLabel == Some(sentiment)
    ensures WithLabel(articles, sentiment) == articles
  {
    if articles != [] {
      WithLabelAll(articles[..|articles| - 1], sentiment);
    }
  }

  /** Filtering twice by the same label is filtering once. */
  lemma {:induction false} WithLabelIdempotent(articles: seq<NewsArticle>, sentiment: string)
    ensures WithLabel(WithLabel(articles, sentiment), sentiment) == WithLabel(articles, sentiment)
  {
    var r := WithLabel(articles, sentiment);
    forall k | 0 <= k < |r| ensures r[k].sentimentLabel == Some(sentiment) {
      assert r[k] in r;
    }
    WithLabelAll(r, sentiment);
  }

  /** The label filter and the topic filter commute. */
  lemma {:induction false} FiltersCommute(articles: seq<NewsArticle>, sentiment: string, topic: string)
    ensures WithTopic(WithLabel(articles, sentiment), topic) == WithLabel(WithTopic(articles, topic), sentiment)
  {
    if articles != [] {
      var init := articles[..|articles| - 1];
      FiltersCommute(init, sentiment, topic);
    }
  }
  // ------------------------------------------------------------ the chain

  /** A match's dictionary. */
  function DictOf(h: (ArticleDict, nat)): ArticleDict {
    h.0
  }

  /** The search stage: the ranked matches when there is a query, otherwise every dictionary. */
  function Searched(ds: seq<ArticleDict>, query: string): seq<ArticleDict> {
    if query == "" then ds else MapSeq(Ranking(ds, Terms(query)), DictOf)
  }

  /** The label stage, skipped when the filter is off. */
  function LabelStage(ds: seq<ArticleDict>, sentiment: string): seq<ArticleDict> {
    if Off(sentiment) then ds else Filter(ds, HasLabel(sentiment))
  }

  /** The topic stage, skipped when the filter is off. */
  function TopicStage(ds: seq<ArticleDict>, topic: string): seq<ArticleDict> {
    if Off(topic) then ds else Filter(ds, HasTopic(topic))
  }

  /** The dictionaries the filtering endpoint sends back: search, then label, then topic. */
  function Chain(ds: seq<ArticleDict>, query: string, sentiment: string, topic: string): seq<ArticleDict> {
    TopicStage(LabelStage(Searched(ds, query), sentiment), topic)
  }

  /** The articles the search returns carry, in order, the dictionaries of the search stage. */
  lemma SearchedDicts(results: seq<NewsArticle>, ds: seq<ArticleDict>, query: string)
    requires query != ""
    requires Tagged(results) == Ranking(ds, Terms(query))
    ensures Snapshots(results) == Searched(ds, query)
  {
    var r := Ranking(ds, Terms(query));
    forall k | 0 <= k < |results| ensures Snapshots(results)[k] == Searched(ds, query)[k] {
      assert Tagged(results)[k] == r[k];
    }
  }

  /** The search stage keeps exactly the relevant dictionaries (all of them without a query). */
  lemma {:induction false} SearchedMembers(ds: seq<ArticleDict>, query: string)
    ensures forall d :: d in Searched(ds, query) <==>
      d in ds && (query != "" ==> RelevanceOf(d, Terms(query)) > 0)
  {
    if query != "" {
      var terms := Terms(query);
      var r := Ranking(ds, terms);
      var out := Searched(ds, query);
      RankingProperties(ds, terms);
      forall d | d in out ensures d in ds && RelevanceOf(d, terms) > 0 {
        var k :| 0 <= k < |out| && out[k] == d;
        assert r[k] in r;
      }
      forall d | d in ds && RelevanceOf(d, terms) > 0 ensures d in out {
        RankedDictListed(ds, terms, d);
      }
    }
  }

  /** A relevant dictionary is among the search stage's dictionaries. */
  lemma RankedDictListed(ds: seq<ArticleDict>, terms: seq<string>, d: ArticleDict)
    requires forall k :: 0 <= k < |terms| ==> |terms[k]| > 0
    requires (d, RelevanceOf(d, terms)) in Ranking(ds, terms)
    ensures d in MapSeq(Ranking(ds, terms), DictOf)
  {
    var r := Ranking(ds, terms);
    var k :| 0 <= k < |r| && r[k] == (d, RelevanceOf(d, terms));
    assert MapSeq(r, DictOf)[k] == d;
  }

  /** With a query, the search stage puts the most relevant dictionaries first. */
  lemma {:induction false} SearchedOrder(ds: seq<ArticleDict>, query: string)
    requires query != ""
    ensures var r := Searched(ds, query);
      forall i, j :: 0 <= i < j < |r| ==> RelevanceOf(r[i], Terms(query)) >= RelevanceOf(r[j], Terms(query))
  {
    var terms := Terms(query);
    var ranking := Ranking(ds, terms);
    RankingProperties(ds, terms);
    forall i, j | 0 <= i < j < |ranking|
      ensures RelevanceOf(ranking[i].0, terms) >= RelevanceOf(ranking[j].0, terms)
    {
      assert ranking[i] in ranking && ranking[j] in ranking;
    }
  }

  /** Exactly the dictionaries that pass every stage come back. */
  lemma {:induction false} ChainMembers(ds: seq<ArticleDict>, query: string, sentiment: string, topic: string)
    ensures forall d :: d in Chain(ds, query, sentiment, topic) <==> d in ds && Passes(d, query, sentiment, topic)
  {
    var searched := Searched(ds, query);
    SearchedMembers(ds, query);
    FilterMembers(searched, HasLabel(sentiment));
    FilterMembers(LabelStage(searched, sentiment), HasTopic(topic));
  }

  /** Without a query the dictionaries come back in their input order. */
  lemma {:induction false} ChainInOrder(ds: seq<ArticleDict>, sentiment: string, topic: string)
    ensures SubsequenceOf(Chain(ds, "", sentiment, topic), ds)
  {
    if Off(sentiment) && Off(topic) {
      SubsequenceOfItself(ds);
    } else if !Off(sentiment) && !Off(topic) {
      FilterTwice(ds, HasLabel(sentiment), HasTopic(topic));
    }
  }

  /**
   * With a query the dictionaries come back most relevant first (and, by `RankingProperties`,
   * equally relevant ones in input order).
   */
  lemma {:induction false} ChainByRelevance(ds: seq<ArticleDict>, query: string, sentiment: string, topic: string)
    requires query != ""
    ensures var r := Chain(ds, query, sentiment, topic);
      forall i, j :: 0 <= i < j < |r| ==> RelevanceOf(r[i], Terms(query)) >= RelevanceOf(r[j], Terms(query))
  {
    var key := (d: ArticleDict) => RelevanceOf(d, Terms(query));
    var searched := Searched(ds, query);
    SearchedOrder(ds, query);
    assert forall i, j :: 0 <= i < j < |searched| ==> key(searched[i]) >= key(searched[j]);
    var labelled := LabelStage(searched, sentiment);
    if !Off(sentiment) {
      FilterKeepsOrder(searched, HasLabel(sentiment), key);
      assert labelled == Filter(searched, HasLabel(sentiment));
    }
    var r := Chain(ds, query, sentiment, topic);
    assert r == TopicStage(labelled, topic);
    if !Off(topic) {
      FilterKeepsOrder(labelled, HasTopic(topic), key);
      assert r == Filter(labelled, HasTopic(topic));
    }
  }

  /**
   * Whether an article survives the chain: it matches the query (when there is one), has
   * the requested label and lists the requested topic (when those filters are on).
   */
  predicate Passes(d: ArticleDict, query: string, sentiment: string, topic: string) {
    (query != "" ==> RelevanceOf(d, Terms(query)) > 0)
    && (!Off(sentiment) ==> d.sentimentLabel == Some(sentiment))
    && (!Off(topic) ==> topic in d.topics)
  }

  /** The articles rebuilt from their dictionaries at the HTTP boundary. */
  method Rebuild(dicts: seq<ArticleDict>) returns (articles: seq<NewsArticle>)
    ensures Snapshots(articles) == dicts
    ensures forall k :: 0 <= k < |articles| ==> fresh(articles[k])
  {
    articles := [];
    for i := 0 to |dicts|
      invariant |articles| == i
      invariant forall k :: 0 <= k < i ==> fresh(articles[k]) && articles[k].ToDict() == dicts[k]
    {
      var a := new NewsArticle.FromDict(dicts[i]);
      articles := articles + [a];
    }
  }

  /**
   * The filtering endpoint: rebuild the articles, search when there is a query, filter
   * by label unless it is `"all"`, filter by topic unless it is `"all"`, and send back
   * the dictionaries of what is left.
   */
  method FilterArticles(dicts: seq<ArticleDict>, query: string, sentiment: string, topic: string)
    returns (out: seq<ArticleDict>)
    ensures out == Chain(dicts, query, sentiment, topic)
  {
    var articles := Rebuild(dicts);
    var filtered := articles;
    if query != "" {
      filtered := QueryArticles(filtered, query);
      if dicts != [] {
        SearchedDicts(filtered, dicts, query);
      } else {
        assert Ranking(dicts, Terms(query)) == [];
      }
    }
    assert Snapshots(filtered) == Searched(dicts, query);
    if sentiment != "all" {
      if !Off(sentiment) {
        WithLabelDicts(filtered, sentiment);
      }
      filtered := FilterBySentiment(filtered, sentiment);
    }
    assert Snapshots(filtered) == LabelStage(Searched(dicts, query), sentiment);
    if topic != "all" {
      if !Off(topic) {
        WithTopicDicts(filtered, topic);
      }
      filtered := FilterByTopic(filtered, topic);
    }
    out := Snapshots(filtered);
  }
}
