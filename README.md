# News sentiment pipeline — a verified model

This project models the analysis core of a company news-sentiment service. The service
scrapes news articles about a company, or generates stand-in articles when scraping fails.
It scores each article with a lexicon sentiment analyser and extracts its key topics. It then
aggregates the batch into a comparative report: label distribution, average score, extreme
articles, common topics and per-topic sentiment. It renders that report as an English summary
and a Hindi summary, and lets a client search and filter the articles. The HTTP layer turns
article dictionaries back into article objects before it queries and filters them.

The modules follow the program's structure:

| module | file | models |
|---|---|---|
| `Wrappers` | wrappers.dfy | `Option` (Python's `None`) |
| `Text` | text.dfy | `str.lower`/`upper`, `isalnum`, `isspace`, `in`, `str.count`, `split()`, `join`, `str(int)` |
| `Sorting` | sorting.dfy | Python's stable `sorted(key=…)`, slicing, subsequences, distinct lists |
| `Counter` | counter.dfy | an insertion-ordered `dict` used as a counter |
| `Sentiment` | sentiment.dfy | the ±0.05 labelling rule |
| `Topics` | topics.dfy | the article topic extractor (words, weighted bigrams, substring-free greedy choice) |
| `Articles` | articles.dfy | the `NewsArticle` class and its `to_dict` form |
| `Scraper` | scraper.dfy | the fallback article generator |
| `Rounding` | rounding.dfy | Python's `round(x, d)` (half to even) |
| `Analyzer` | analyzer.dfy | `analyze_articles` and `generate_comparative_analysis` |
| `Summary` | summary.dfy | `create_summary`, `create_hindi_summary`, `_get_hindi_sentiment` |
| `QueryEngine` | queryengine.dfy | `ArticleQueryEngine` and the HTTP filter chain |
| `Utils` | utils.dfy | `clean_text`, `get_sentiment_label`, the helper `extract_topics`, `safe_dict_to_json` |

`NewsArticle` is a class. Its title, summary, url, source and date never change after
construction. The scorer, the topic extractor and the query engine update its label, score,
topics and relevance in place. The batch operations that loop over articles are methods with
loop invariants. Most are proved equal to a specification function on the articles'
dictionaries (`GenerateComparativeAnalysis` to `Analyze`, `CreateSummary` to `SummaryText`,
`ExtractTopics` to `TopWords`, `FilterArticles` to `Chain`, …). The properties the code
promises are proved about those functions. `AnalyzeArticles` updates the articles in place;
its contract states, article by article, the new label, score and topics relative to the
old state.

The rest of the system is supplied as parameters:
- The lexicon scorer is `string -> Option<real>`; `None` means it raised.
- The NLTK tokenizer used on raw article text is `string -> Option<seq<string>>`.
- The stopword corpus is `set<string>`.
- The way Python prints a float is `real -> string`.

## Model

| member | source | states |
|---|---|---|
| Sentiment.LabelFor | utils.py:106-113 | the label is "positive" exactly when the score is at least 0.05, "negative" exactly when it is at most -0.05, "neutral" exactly in between |
| Sentiment.LabelMonotone | utils.py:106-113 | a higher score never gets a lower label |
| Sentiment.LabelBoundaries | utils.py:108-111 | both thresholds are inclusive: 0.05 is positive and -0.05 is negative; 0.0499 is neutral |
| Sentiment.Outcome | classes.py:80-96 | the label always agrees with the stored score; a scorer failure gives ("neutral", 0) |
| Articles.NewsArticle.constructor | classes.py:63-71 | a new article has the given identity fields, no label, no score, no topics and no relevance |
| Articles.NewsArticle.FromDict | api.py:139-148 | an article rebuilt from a dictionary gives that dictionary back from `to_dict` |
| Articles.NewsArticle.AnalyzeSentiment | classes.py:73-96 | the method stores and returns the scorer's outcome for "title summary", and the label matches the score |
| Articles.NewsArticle.ExtractTopics | classes.py:98-162 | the method stores and returns the topics of the lower-cased text, or none when tokenizing raised |
| Articles.Snapshots | classes.py:164-175 | the dictionaries of a list of articles, one per article and in order |
| Articles.RoundTrip | api.py:139-148 | the rebuilt article is new and has the same dictionary as the original |
| Topics.FilterTokens | classes.py:118-120 | exactly the alphanumeric tokens outside the stopword set survive, in order |
| Topics.UnigramPass | classes.py:127-130 | every word longer than 3 characters is counted once per occurrence |
| Topics.BigramPass | classes.py:132-137 | every adjacent pair of long words adds 2 to its phrase's weight |
| Topics.WeightOf | classes.py:126-137 | a candidate's weight is its long-word count plus twice its phrase count; the candidates are exactly the long words and long-word phrases |
| Topics.LongCountPositive | classes.py:128-130 | a word is counted if and only if it is a long word of the text |
| Topics.PairCountPositive | classes.py:133-137 | a phrase is counted if and only if some adjacent pair of long words forms it |
| Topics.CountWeights | classes.py:126-137 | the counting loops build exactly the weight table |
| Topics.RankedWeights | classes.py:140 | every ranked pair carries its candidate's weight |
| Topics.RankedCovers | classes.py:140 | every candidate appears in the ranking |
| Topics.Greedy | classes.py:143-149 | the admission loop: walk the ranking, skip a candidate that clashes, stop once `num_topics` are admitted; its properties are the `Greedy…` lemmas |
| Topics.TopicsOf | classes.py:140-149 | the extractor's topics: the admission loop over the ranking; its properties are `TopicsOfShape` and `TopicsOfCandidates` |
| Topics.GreedyExtends | classes.py:143-149 | the greedy pass only appends ranked candidates to what it already admitted |
| Topics.GreedyBounded | classes.py:143-149 | the pass never holds more than `num_topics` topics, or one when `num_topics` is below 1 |
| Topics.GreedySubstringFree | classes.py:143-149 | no admitted topic is a substring of another |
| Topics.GreedyMaximal | classes.py:143-149 | when the pass ends short, every ranked candidate clashes with an admitted topic |
| Topics.GreedyOrdered | classes.py:140-149 | admitted topics come in non-increasing weight |
| Topics.SelectTopics | classes.py:143-149 | the selection loop with its early `break` computes the greedy pass |
| Topics.TopicsOfShape | classes.py:140-149 | the topics are bounded in number, substring-free and in non-increasing weight |
| Topics.TopicsOfCandidates | classes.py:140-149 | every topic is a candidate; a short list leaves no candidate that does not clash |
| Topics.ComputeTopics | classes.py:122-158 | the extractor's result with all of the above properties |
| Scraper.FallbackConsistent | classes.py:322-352 | every generated article's label is one of the three labels, its preset score gets that label back, it has 5 topics, and the labels cycle with period 3 |
| Scraper.FallbackDict | classes.py:326-352 | the dictionary of the i-th stand-in article, chosen by `i % 3` for the label and score; its properties are `FallbackConsistent` |
| Scraper.FallbackArticle | classes.py:326-352 | the i-th stand-in article has the title, summary, url, source, date, label, score and topics given for `i % 3` |
| Scraper.FallbackNewsSource | classes.py:316-356 | `num_articles` distinct new articles, numbered from 1, or none when the count is not positive |
| Rounding.NearestEven | classes.py:456 | the chosen integer is within one half of the value, and an integer is kept |
| Rounding.Round | classes.py:434 | the result has `d` decimals and lies within half a unit of the last place |
| Rounding.RoundOnGrid | classes.py:465 | a value that already has `d` decimals is unchanged |
| Rounding.RoundIdempotent | classes.py:465 | rounding twice is rounding once |
| Rounding.RoundTenthsNonNegative | classes.py:434 | rounding a non-negative value to one decimal place never gives a negative one |
| Rounding.RoundHalfEven | classes.py:434 | ties go to the even neighbour: 0.125 becomes 0.12 and 2.5 becomes 2 |
| Analyzer.EnrichOne | classes.py:372-388 | one article is enriched, and enriching it again changes nothing |
| Analyzer.EnrichNext | classes.py:372-388 | enriching article i keeps the first i enriched, and the later articles keep their labels and scores |
| Analyzer.AnalyzeArticles | classes.py:370-390 | every article keeps a preset label and score or gets the scorer's; every article's topics are re-extracted; the same list is returned |
| Analyzer.Bucket | classes.py:408-413 | an article counts under its own label, or under "neutral" when the label is unexpected |
| Analyzer.Tally | classes.py:406-413 | a label count never exceeds the number of articles |
| Analyzer.TallySum | classes.py:406-413 | the three label counts add up to the number of articles |
| Analyzer.TallyLabels | classes.py:406-413 | the counting loop computes the three tallies |
| Analyzer.SumScores | classes.py:415-416 | the sum completes exactly when every article has a score, and then equals the total |
| Analyzer.Record | classes.py:445-451 | one mention changes only that topic's record and appends a new topic to the order |
| Analyzer.RecordAll | classes.py:441-451 | recording an article's topics keeps the table well formed |
| Analyzer.TopicPass | classes.py:438-451 | the per-topic table is well formed |
| Analyzer.Frequency | classes.py:441-443 | each topic's count is its number of mentions, and only mentioned topics are present |
| Analyzer.CountArticleTopics | classes.py:441-451 | one article's topics go through exactly when its label indexes a record and it has a score |
| Analyzer.CountTopics | classes.py:437-451 | the topic loops finish exactly when no article's label or score makes them raise, and then build the frequency and per-topic tables |
| Analyzer.AverageTopics | classes.py:453-456 | every topic's score total becomes its average, rounded to 2 decimals |
| Analyzer.Finish | classes.py:418-470 | the loops' results assemble into the report |
| Analyzer.GenerateComparativeAnalysis | classes.py:392-482 | the method computes the report of the articles' dictionaries |
| Analyzer.Analyze | classes.py:392-482 | "No data" exactly for an empty list; the placeholder when aggregation raises; otherwise the label of the mean score |
| Analyzer.SuperlativesAreEnds | classes.py:419-421 | the most negative and most positive articles are the ends of the list sorted by score |
| Analyzer.SortedScoreBounds | classes.py:419-421 | the first and last articles of the sorted list bound every score |
| Analyzer.SuperlativeBounds | classes.py:419-421 | both extreme articles come from the list and bound every article's score |
| Analyzer.MeanWithin | classes.py:416 | the mean lies between any bounds on the scores |
| Analyzer.OverallBetweenExtremes | classes.py:416-429 | the overall label lies between the labels of the extreme articles |
| Analyzer.PercentsNearHundred | classes.py:432-435 | three rounded percentages of a whole sum to within 0.15 of 100 |
| Analyzer.DistributionNearHundred | classes.py:431-435 | the report's distribution sums to within 0.15 of 100 |
| Analyzer.RecordAgrees | classes.py:445-451 | one mention keeps each topic's record count equal to its frequency count |
| Analyzer.RecordAllAgrees | classes.py:441-451 | recording a list of topics keeps the record and frequency counts equal |
| Analyzer.TopicPassAgrees | classes.py:438-451 | the per-topic counts agree with the topic frequencies |
| Analyzer.TopicSentimentCounts | classes.py:438-456 | a topic is in the table exactly when mentioned; its count is its mentions, split among the three labels; each label's count is the mentions by articles with that label; `avg_score` is the mentioning articles' summed scores over the mentions, rounded to two places |
| Analyzer.RecordAllStats | classes.py:442-451 | recording an article's topics bumps each topic's record by its number of occurrences in the list, in the article's label field, score sum and count |
| Analyzer.TopicPassStats | classes.py:441-451 | before averaging, each topic's record holds its mentions by positive, neutral and negative articles, the sum of the mentioning scores and the number of mentions |
| Analyzer.TopicRecord | classes.py:441-456 | the report's record of a mentioned topic, field by field, in terms of the mentions |
| Analyzer.CommonTopics | classes.py:458-460 | the topics of the first 10 pairs of the ranking `RankedTopics`; its properties are the two lemmas below |
| Analyzer.CommonTopicsProperties | classes.py:458-460 | min(10, number of mentioned topics) common topics, each mentioned, none repeated, most mentioned first |
| Analyzer.CommonTopicsMostMentioned | classes.py:458-460 | no topic left out of the common topics is mentioned more often than one kept |
| Analyzer.RankedTopicsSound | classes.py:459 | every ranked pair is a mentioned topic with its number of mentions |
| Analyzer.RankedTopicsComplete | classes.py:459 | every mentioned topic is ranked with its number of mentions |
| Analyzer.RankedTopicsDistinct | classes.py:459 | the ranking lists each mentioned topic exactly once |
| Analyzer.Placeholder | classes.py:471-482 | the report after a failed aggregation: neutral, 33.3 each, average 0, the first and last articles, no topics; `Analyze` returns it exactly when aggregation raises |
| Summary.TrendOf | classes.py:543-553 | the trend sentence chosen by the five-way branch on the distribution, each case stated exactly |
| Summary.TrendMirror | classes.py:543-553 | swapping the positive and negative shares mirrors the trend |
| Summary.LeanOf | classes.py:588-593 | favourable exactly when positive leads negative by more than 20 points, unfavourable for the reverse, mixed otherwise |
| Summary.LeanMirror | classes.py:588-593 | swapping the shares mirrors the lean |
| Summary.LeanWithinTrend | classes.py:543-593 | a favourable lean never comes with a negative trend, and the reverse; a balanced trend means a mixed lean |
| Summary.PercentNonNegative | classes.py:433-435 | a rounded percentage is never negative |
| Summary.PercentAtMostHalf | classes.py:433-435 | a share of at most half rounds to at most 50 |
| Summary.AnalysisTrendConsistent | classes.py:544-547 | a report never shows both shares above 50, and their sum stays within 120 |
| Summary.TopicTone | classes.py:577 | a topic reads positive above 0.1, negative below -0.1, neutral in between |
| Summary.ToneImpliesLabel | classes.py:577 | a non-neutral topic tone agrees with the article labelling rule |
| Summary.Listed | classes.py:574-575 | only topics with a record are described |
| Summary.ListedMembers | classes.py:574-578 | for any list of topics, a topic is listed exactly when it is in the list and has a record |
| Summary.ListedOrdered | classes.py:574-578 | the listed topics keep the list's order |
| Summary.Described | classes.py:574-575 | the described topics all have a record |
| Summary.DescribedTopics | classes.py:574-578 | at most 7 topics are described: exactly those of the first 7 common topics that have a record, in common-topic order |
| Summary.SummaryDescribes | classes.py:570-580 | when there are common topics, the report contains the lines of the described topics |
| Summary.CollectTopicLines | classes.py:570-580 | the topic loop writes one line per described topic, in order |
| Summary.Notable | classes.py:596-601 | only topics with at least 2 mentions and an average beyond ±0.2 give an insight |
| Summary.NotableMembers | classes.py:596-601 | a topic gives an insight exactly when it is in the table and is notable |
| Summary.NotableOrdered | classes.py:596-601 | topic insights keep the table's order |
| Summary.TopicInsights | classes.py:598-601 | one insight per notable topic |
| Summary.CollectTopicInsights | classes.py:595-601 | the insight loop produces the topic insights in table order |
| Summary.InsightsKept | classes.py:586-607 | 1 to 5 insights are printed; the first is the lean insight; the list holds one lean line, one per notable topic and one competitive line when a topic mentions competition |
| Summary.SummaryText | classes.py:528-609 | the English report with the given count written in; the corrected half of the classes.py:531 finding |
| Summary.SummaryAsWritten | classes.py:531-535 | the English report as written: the count is always "10"; the as-written half of the finding |
| Summary.CreateSummary | classes.py:528-609 | the method builds `SummaryText` for the article count it is given: the corrected count, not the hard-coded 10 of classes.py:531 |
| Summary.SummaryIgnoresCount | classes.py:531-535 | as written, the summary text is the same for 3 and 7 articles, namely the text for 10 |
| Summary.SummaryRecordsCount | classes.py:528-535 | the corrected summary determines the article count: different counts give different texts |
| Summary.HindiSentiment | classes.py:520-527 | the Hindi word for positive or negative exactly for those labels, for neutral otherwise |
| Summary.HindiSentimentInjective | classes.py:520-527 | different labels get different Hindi words |
| Summary.HindiOpens | classes.py:485-492 | the Hindi summary opens with the report heading for the company |
| Summary.HindiCloses | classes.py:505-515 | the Hindi summary closes with the lean sentence |
| Summary.HindiRecordsCount | classes.py:488-492 | the Hindi summary determines the number of articles |
| Summary.CreateHindiSummary | classes.py:485-515 | the Hindi report: heading, count, overall label in Hindi, distribution, average, up to 5 topics, lean sentence; its properties are the Hindi lemmas |
| Summary.HindiNamesTopics | classes.py:502-503 | the Hindi summary names the first min(5, number of common topics) common topics, in order, whenever there are common topics |
| QueryEngine.Terms | classes.py:622 | every query term is a non-empty word of the lower-cased query |
| QueryEngine.Relevance | classes.py:626-631 | the relevance is the sum, over the terms, of each term's non-overlapping occurrences; `RelevancePositive` states when it is positive |
| QueryEngine.RelevancePositive | classes.py:626-631 | an article is relevant exactly when some term occurs in its lower-cased text |
| QueryEngine.Matches | classes.py:625-641 | the hits are exactly the articles with positive relevance, each paired with its relevance |
| QueryEngine.Ranking | classes.py:643-645 | the hits sorted by relevance, highest first; its properties are `RankingProperties` |
| QueryEngine.RankingProperties | classes.py:643-645 | the ranking holds the hits, most relevant first, with equal relevance in input order |
| QueryEngine.CopyWithRelevance | classes.py:633-639 | the copy is a new article with the same dictionary and the relevance set |
| QueryEngine.MatchOne | classes.py:626-641 | one article yields a copy tagged with its relevance exactly when it is a hit |
| QueryEngine.CollectMatches | classes.py:625-641 | the scan yields new copies of exactly the hits, in input order |
| QueryEngine.RankHits | classes.py:643-645 | sorting the copies by relevance gives the ranking of the hits |
| QueryEngine.QueryArticles | classes.py:617-645 | an empty query or list comes back unchanged; otherwise the result is new copies of the ranked hits |
| QueryEngine.WithLabel | classes.py:652 | the kept articles are exactly those with the label, in order |
| QueryEngine.WithTopic | classes.py:659 | the kept articles are exactly those with the topic, in order |
| QueryEngine.WithLabelDicts | classes.py:652 | the kept articles' dictionaries are those of the articles with the label, position by position: none dropped, none repeated |
| QueryEngine.WithTopicDicts | classes.py:659 | the kept articles' dictionaries are those of the articles with the topic, position by position: none dropped, none repeated |
| QueryEngine.FilterBySentiment | classes.py:647-652 | "" or "all" keeps everything; otherwise only articles with that label are kept |
| QueryEngine.FilterByTopic | classes.py:654-659 | "" or "all" keeps everything; otherwise only articles with that topic are kept |
| QueryEngine.WithLabelAll | classes.py:652 | filtering articles that all carry the label keeps them all |
| QueryEngine.WithLabelIdempotent | classes.py:652 | filtering by a label twice is filtering once |
| QueryEngine.FiltersCommute | classes.py:647-659 | the sentiment and topic filters commute |
| QueryEngine.SearchedDicts | classes.py:617-645 | the articles the search returns carry, in order, the dictionaries of the ranked matches |
| QueryEngine.SearchedMembers | classes.py:617-645 | the search stage keeps exactly the relevant dictionaries, or all of them without a query |
| QueryEngine.SearchedOrder | classes.py:643-645 | with a query, the search stage puts the more relevant dictionaries first |
| QueryEngine.Rebuild | api.py:179-190 | the rebuilt articles are new and give back exactly the dictionaries they came from |
| QueryEngine.FilterArticles | api.py:196-208 | the endpoint returns exactly `Chain` of its dictionaries: the ranked matches (or all dictionaries without a query), then the label filter, then the topic filter |
| QueryEngine.ChainMembers | api.py:196-208 | a dictionary comes back exactly when it matches the query, the sentiment filter and the topic filter |
| QueryEngine.ChainInOrder | api.py:196-208 | without a query the dictionaries come back in their input order |
| QueryEngine.ChainByRelevance | api.py:199-208 | with a query the dictionaries come back most relevant first |
| Utils.StripSpecials | utils.py:38-40 | only word characters and whitespace that are not digits survive |
| Utils.DropStopwords | utils.py:46-48 | exactly the words outside the stopword set are kept |
| Utils.CleanText | utils.py:33-50 | `clean_text`: strip specials, lower-case, drop stopwords, join with spaces; its properties are `CleanTextWords` and `CleanTextIdempotent` |
| Utils.CleanTextWords | utils.py:33-50 | the cleaned text's words are the lower-cased non-stopwords in order; none is a stopword, empty, upper-case or a digit |
| Utils.CleanTextIdempotent | utils.py:33-50 | cleaning clean text changes nothing |
| Utils.LongWords | utils.py:125-127 | exactly the words longer than 3 characters outside the stopword set are kept |
| Utils.CountWords | utils.py:129-135 | the counting loop builds the frequency dictionary |
| Utils.FrequenciesCount | utils.py:129-135 | the dictionary lists each distinct word once, with its number of occurrences |
| Utils.RankedWordsCounts | utils.py:137-138 | the ranking holds every word with its count and nothing else |
| Utils.RankedWordsDistinct | utils.py:137-138 | no word is ranked twice |
| Utils.PyPrefix | utils.py:141 | Python's `[:n]` slice, with a negative `n` counting from the end |
| Utils.TopOfShape | utils.py:137-141 | the topics are distinct words of the list; with `n >= 0` there are `n` of them or every distinct word |
| Utils.TopOfRanked | utils.py:137-141 | topics come most frequent first, and no omitted word is more frequent than a kept one |
| Utils.TopWordsFrom | utils.py:116-141 | each topic is a word of the cleaned text, longer than 3 characters and not a stopword; empty text has no topics |
| Utils.TopWords | utils.py:116-141 | the helper's topics: the first `n` words of the frequency ranking of the kept words; its properties are `TopOfShape`, `TopOfRanked` and `TopWordsFrom` |
| Utils.ExtractTopics | utils.py:116-141 | the method computes the helper's topics |
| Utils.SafeDictToJson | utils.py:208-221 | every value in the result is serialisable; scalars pass through; lists and tuples become lists of converted items; dicts keep their keys and convert their values; other objects become their string |
| Utils.SafeDictToJsonKeys | utils.py:220-221 | keys are kept at every depth, so the result is fully serialisable (values and keys) exactly when every dict key of the input is a scalar |
| Utils.SafeDictToJsonFixes | utils.py:214-219 | a value whose values are already serialisable is unchanged, whatever its keys |
| Utils.TupleKeyKept | utils.py:220-221 | a dict keyed by a tuple comes back unchanged and still not serialisable |
| Utils.SafeDictToJsonIdempotent | utils.py:208-221 | converting twice is converting once |
| Sorting.SortBy | classes.py:419 | `sorted` returns a permutation ordered by the key |
| Sorting.SortByStable | classes.py:644 | elements with equal keys keep their input order |
| Sorting.Filter | classes.py:652 | a list comprehension keeps exactly the elements that pass, as a sub-list in input order |
| Sorting.FilterKeepsOrder | classes.py:652-659 | filtering a list ordered by a key keeps it ordered |
| Sorting.FilterTwice | api.py:202-206 | two filters in a row are one filter by both tests |

## Left out

- Scraping Google News, HTTP fetching, chart drawing, text-to-speech, the Flask and
  Streamlit front ends: I/O with no logic to prove.
- The lexicon scorer, the NLTK tokenizer for raw article text and the stopword corpus are
  parameters. In `Utils`, `word_tokenize` runs on cleaned text that holds only word
  characters and whitespace. There it is modelled as `str.split()`. The Treebank tokenizer's
  special splitting of a few contractions ("cannot", "gonna") is not modelled.
- Python's `\w`, `\d`, `str.lower` and `str.isalnum` also match non-ASCII letters and digits.
  The model treats only ASCII letters and digits as such. `str.isspace` follows Python's
  whitespace table.
- Floats are exact reals. Binary rounding effects in `round` and in the mean are not modelled.
- How Python prints a float is the `show` parameter of the summaries. When a report holds the
  integer `0` rather than `0.0`, Python prints "0"; this is not distinguished.
- The `except` branches of `create_summary` and `create_hindi_summary` are not modelled. They
  can only fire on a malformed report dictionary, and the model's `Analysis` is always well
  formed.
- Utils.SafeDictToJson: the pandas `DataFrame` and `Series` branches and the base64 encoding
  of `BytesIO` are not modelled. They need the pandas and I/O libraries. Dict keys are not
  converted (utils.py:221), so the result is JSON-serialisable only when its keys already are
  scalars; `TupleKeyKept` exhibits a tuple key that stays.
- Utils.TopOfRanked: Python's tie order (first occurrence among equally frequent words) holds
  by `Sorting.SortByStable` but is not restated for this function.
- Analyzer.TopicSentimentCounts: proved only when every article that lists topics carries one
  of the three labels. The callers aggregate analysed articles, so this holds for them. An
  article labelled "count" or "avg_score" passes the topic loop without raising and bumps that
  field instead of a label count. `Record` models that, but the count then no longer equals
  the sum of the three label counts.
- The first `SentimentAnalyzer` class (a thin wrapper around the scorer) is subsumed by the
  scorer parameter.

## Findings

| source | as written | input that shows it | evidently intended | confidence | as-written member | corrected member |
|---|---|---|---|---|---|---|
| classes.py:531 | `create_summary` overwrites its `total_articles` argument with 10, so every summary says "Based on an analysis of 10 news articles" | a report on 3 articles | the summary states the number of articles it was given | high; not executed | Summary.SummaryIgnoresCount | Summary.SummaryRecordsCount |
