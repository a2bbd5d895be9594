/**
 * The two text reports built from a comparative analysis: the detailed English report
 * (`create_summary`) and the shorter Hindi report that the speech layer reads out
 * (`create_hindi_summary`). Numbers that Python prints with `str` of a float go through
 * `show`, which is a parameter here.
 */
module Summary {
  import opened Wrappers
  import opened Text
  import opened Sorting
  import opened Articles
  import opened Analyzer
  import Sentiment
  import Rounding

  /** Python's `str` of a float. */
  type Show = real -> string

  /** How many common topics the English report details, and how many the Hindi one names. */
  const DETAILED_TOPICS: nat := 7
  const NAMED_TOPICS: nat := 5

  /** How many strategic insights the English report keeps. */
  const MAX_INSIGHTS: nat := 5

  // ------------------------------------------------------------ the media trend

  /** The five readings of the distribution, tried in this order. */
  datatype Trend = MostlyPositive | MostlyNegative | LeansPositive | LeansNegative | Balanced {
    /** The same reading with positive and negative swapped. */
    function Mirror(): Trend {
      match this
      case MostlyPositive => MostlyNegative
      case MostlyNegative => MostlyPositive
      case LeansPositive => LeansNegative
      case LeansNegative => LeansPositive
      case Balanced => Balanced
    }
  }

  /**
   * The trend paragraph's choice from the positive and negative percentages: a majority
   * first (positive winning a tie of majorities), then a lead of more than ten points.
   */
  function TrendOf(p: real, n: real): (t: Trend)
    ensures t == MostlyPositive <==> p > 50.0
    ensures t == MostlyNegative <==> p <= 50.0 && n > 50.0
    ensures t == LeansPositive <==> p <= 50.0 && n <= 50.0 && p > n + 10.0
    ensures t == LeansNegative <==> p <= 50.0 && n <= 50.0 && n > p + 10.0
    ensures t == Balanced <==> p <= 50.0 && n <= 50.0 && -10.0 <= p - n <= 10.0
  {
    if p > 50.0 then MostlyPositive
    else if n > 50.0 then MostlyNegative
    else if p > n + 10.0 then LeansPositive
    else if n > p + 10.0 then LeansNegative
    else Balanced
  }

  /**
   * Unless both sides claim a majority, the rule treats positive and negative
   * symmetrically: swapping the percentages mirrors the reading.
   */
  lemma {:induction false} TrendMirror(p: real, n: real)
    requires !(p > 50.0 && n > 50.0)
    ensures TrendOf(n, p) == TrendOf(p, n).Mirror()
  {
  }

  /** Which way the first strategic insight, and the Hindi report's only insight, goes. */
  datatype Lean = Favourable | Unfavourable | Mixed {
    function Mirror(): Lean {
      match this
      case Favourable => Unfavourable
      case Unfavourable => Favourable
      case Mixed => Mixed
    }
  }

  /** A lead of more than twenty points either way; anything closer is mixed. */
  function LeanOf(p: real, n: real): (l: Lean)
    ensures l == Favourable <==> p > n + 20.0
    ensures l == Unfavourable <==> n > p + 20.0
    ensures l == Mixed <==> -20.0 <= p - n <= 20.0
  {
    if p > n + 20.0 then Favourable
    else if n > p + 20.0 then Unfavourable
    else Mixed
  }

  /** The insight rule is symmetric for every pair of percentages. */
  lemma {:induction false} LeanMirror(p: real, n: real)
    ensures LeanOf(n, p) == LeanOf(p, n).Mirror()
  {
  }

  /**
   * The insight never contradicts the trend paragraph: a favourable insight comes with a
   * positive reading, an unfavourable one with a negative reading, and a balanced reading
   * with a mixed insight — as long as the two percentages do not add up to more than 120.
   */
  lemma {:induction false} LeanWithinTrend(p: real, n: real)
    requires p + n <= 120.0
    ensures LeanOf(p, n) == Favourable ==> TrendOf(p, n) in {MostlyPositive, LeansPositive}
    ensures LeanOf(p, n) == Unfavourable ==> TrendOf(p, n) in {MostlyNegative, LeansNegative}
    ensures TrendOf(p, n) == Balanced ==> LeanOf(p, n) == Mixed
  {
  }

  /** A rounded percentage is never negative, since the count it comes from is not. */
  lemma {:induction false} PercentNonNegative(v: nat, total: nat)
    requires total > 0
    ensures Percent(v, total) >= 0.0
  {
    Rounding.RoundTenthsNonNegative(v as real / total as real * 100.0);
  }

  /** A count of at most half the articles never rounds to a majority. */
  lemma {:induction false} PercentAtMostHalf(v: nat, total: nat)
    requires total > 0 && 2 * v <= total
    ensures Percent(v, total) <= 50.0
  {
    var x := v as real / total as real * 100.0;
    assert v as real / total as real <= 0.5;
    var r := Rounding.Round(x, 1);
    assert Rounding.Pow10(1) == 10;
    var k := (r * 10.0).Floor;
    assert k as real == r * 10.0;
    assert k <= 500;
  }

  /**
   * Every report the analyser produces satisfies both lemmas' conditions: no two majorities,
   * and the insight agrees with the trend.
   */
  lemma {:induction false} AnalysisTrendConsistent(ds: seq<ArticleDict>)
    ensures var r := Analyze(ds); !(r.positive > 50.0 && r.negative > 50.0) && r.positive + r.negative <= 120.0
  {
    if ds != [] && !Raises(ds) {
      var p, u, n := Tally(ds, Sentiment.POSITIVE), Tally(ds, Sentiment.NEUTRAL), Tally(ds, Sentiment.NEGATIVE);
      assert Analyze(ds) == Report(ds);
      DistributionNearHundred(ds);
      PercentNonNegative(u, |ds|);
      TallySum(ds);
      if 2 * p <= |ds| {
        PercentAtMostHalf(p, |ds|);
      } else {
        PercentAtMostHalf(n, |ds|);
      }
    }
  }

  function TrendLine(company: string, t: Trend): string {
    match t
    case MostlyPositive =>
      "The media portrayal of " + company + " is predominantly positive, suggesting favorable public perception.\n\n"
    case MostlyNegative =>
      "The media portrayal of " + company + " shows concerning levels of negative coverage that may require attention.\n\n"
    case LeansPositive =>
      "While mixed, the coverage leans positive, indicating a generally favorable perception of " + company + ".\n\n"
    case LeansNegative =>
      "The coverage shows a negative bias that could potentially impact " + company + "'s public image.\n\n"
    case Balanced =>
      "The coverage is notably balanced, suggesting that " + company + " is experiencing mixed reception in current news cycles.\n\n"
  }

  // ------------------------------------------------------------ key articles

  /** A score as the f-string prints it: `None` for a missing one. */
  function ScoreText(score: Option<real>, show: Show): string {
    match score
    case None => "None"
    case Some(x) => show(x)
  }

  /** The block for the most positive or most negative article; nothing when there is none. */
  function KeyArticle(heading: string, d: Option<ArticleDict>, show: Show): string {
    match d
    case None => ""
    case Some(a) =>
      "**" + heading + ":**\n" + "'" + a.title + "'\n" + "Source: " + a.source + "\n"
      + "Sentiment Score: " + ScoreText(a.sentimentScore, show) + "\n\n"
  }

  // ------------------------------------------------------------ topic analysis

  /** A topic's tone in the report: beyond ±0.1 it leans, otherwise it is neutral. */
  function TopicTone(avg: real): (tone: string)
    ensures tone == Sentiment.POSITIVE <==> avg > 0.1
    ensures tone == Sentiment.NEGATIVE <==> avg < -0.1
    ensures tone == Sentiment.NEUTRAL <==> -0.1 <= avg <= 0.1
  {
    if avg > 0.1 then Sentiment.POSITIVE else if avg < -0.1 then Sentiment.NEGATIVE else Sentiment.NEUTRAL
  }

  /**
   * The topic tone is stricter than the article label: a topic called positive or negative
   * has an average that would label an article the same way.
   */
  lemma {:induction false} ToneImpliesLabel(avg: real)
    ensures TopicTone(avg) != Sentiment.NEUTRAL ==> Sentiment.LabelFor(avg) == TopicTone(avg)
    ensures Sentiment.LabelFor(avg) == Sentiment.NEUTRAL ==> TopicTone(avg) == Sentiment.NEUTRAL
  {
  }

  function TopicLine(topic: string, s: TopicStats, show: Show): string {
    "- **" + topic + "**: Mentioned in " + IntToString(s.count) + " articles with "
    + TopicTone(s.avgScore) + " sentiment (" + show(s.avgScore) + ")\n"
  }

  /** The topics among `topics` that have a record, in their order. */
  function Listed(topics: seq<string>, stats: map<string, TopicStats>): (r: seq<string>)
    ensures forall t :: t in r ==> t in stats
    ensures |r| <= |topics|
  {
    if topics == [] then []
    else
      var t := topics[|topics| - 1];
      Listed(topics[..|topics| - 1], stats) + (if t in stats then [t] else [])
  }

  /** A topic is listed exactly when it is among the topics and has a record. */
  lemma {:induction false} ListedMembers(topics: seq<string>, stats: map<string, TopicStats>)
    ensures forall t :: t in Listed(topics, stats) <==> t in topics && t in stats
  {
    if topics != [] {
      var init, t := topics[..|topics| - 1], topics[|topics| - 1];
      ListedMembers(init, stats);
      assert topics == init + [t];
    }
  }

  /** The listed topics keep their order; none is added. */
  lemma {:induction false} ListedOrdered(topics: seq<string>, stats: map<string, TopicStats>)
    ensures SubsequenceOf(Listed(topics, stats), topics)
  {
    if topics != [] {
      var init, t := topics[..|topics| - 1], topics[|topics| - 1];
      ListedOrdered(init, stats);
      var r, l := Listed(topics, stats), Listed(init, stats);
      if t in stats {
        assert r == l + [t];
        assert r[..|r| - 1] == l;
      } else {
        assert r == l + [];
        assert r == l;
        if l != [] {
          assert l[|l| - 1] in l;
        }
      }
    }
  }


  /** The lines of the topic analysis, one per listed topic. */
  function TopicLines(listed: seq<string>, stats: map<string, TopicStats>, show: Show): string
    requires forall t :: t in listed ==> t in stats
  {
    if listed == [] then ""
    else
      var t := listed[|listed| - 1];
      TopicLines(listed[..|listed| - 1], stats, show) + TopicLine(t, stats[t], show)
  }

  /** The topic analysis section: nothing when there are no common topics. */
  function TopicSection(company: string, common: seq<string>, lines: string): string {
    if common == [] then "" else TopicIntro(company) + lines + "\n"
  }

  function TopicIntro(company: string): string {
    " Topic Analysis\n\n" + "The following key topics dominate the current news coverage of " + company + ":\n\n"
  }

  // ------------------------------------------------------------ insights

  function FirstInsight(company: string, l: Lean): string {
    match l
    case Favourable =>
      "- " + company + " is enjoying strong positive media coverage that could be leveraged for marketing and PR initiatives."
    case Unfavourable =>
      "- " + company + " faces significant negative press that may require proactive reputation management."
    case Mixed =>
      "- " + company + " has balanced news coverage, presenting an opportunity to strengthen positive narratives."
  }

  /** A topic worth an insight: mentioned at least twice, with an average beyond ±0.2. */
  predicate IsNotable(s: TopicStats) {
    s.count >= 2 && (s.avgScore > 0.2 || s.avgScore < -0.2)
  }

  /** `t` has a record, and it is notable. */
  predicate NotableIn(t: string, stats: map<string, TopicStats>) {
    t in stats && IsNotable(stats[t])
  }

  /** The notable topics of the table, in its order. */
  function Notable(order: seq<string>, stats: map<string, TopicStats>): (r: seq<string>)
    ensures forall t :: t in r ==> NotableIn(t, stats)
  {
    if order == [] then []
    else
      var t := order[|order| - 1];
      Notable(order[..|order| - 1], stats) + (if NotableIn(t, stats) then [t] else [])
  }

  /** Exactly the notable topics of the table get an insight. */
  lemma {:induction false} NotableMembers(order: seq<string>, stats: map<string, TopicStats>)
    ensures forall t :: t in Notable(order, stats) <==> t in order && NotableIn(t, stats)
  {
    if order != [] {
      var init, t := order[..|order| - 1], order[|order| - 1];
      NotableMembers(init, stats);
      assert order == init + [t];
    }
  }

  /** The notable topics keep the order of the table. */
  lemma {:induction false} NotableOrdered(order: seq<string>, stats: map<string, TopicStats>)
    ensures SubsequenceOf(Notable(order, stats), order)
  {
    if order != [] {
      var init, t := order[..|order| - 1], order[|order| - 1];
      NotableOrdered(init, stats);
      var r, l := Notable(order, stats), Notable(init, stats);
      if NotableIn(t, stats) {
        assert r == l + [t];
        assert r[..|r| - 1] == l;
      } else {
        assert r == l + [];
        assert r == l;
        if l != [] {
          assert l[|l| - 1] in l;
        }
      }
    }
  }


  function NotableLine(topic: string, s: TopicStats): string {
    if s.avgScore > 0.2 then
      "- Positive coverage regarding '" + topic + "' presents an opportunity for further emphasis in communications."
    else
      "- Concerns expressed about '" + topic + "' may require specific attention and addressing in future messaging."
  }

  /** One insight per notable topic. */
  function TopicInsights(notable: seq<string>, stats: map<string, TopicStats>): (r: seq<string>)
    requires forall t :: t in notable ==> t in stats
    ensures |r| == |notable|
  {
    if notable == [] then []
    else
      var t := notable[|notable| - 1];
      TopicInsights(notable[..|notable| - 1], stats) + [NotableLine(t, stats[t])]
  }

  const COMPETITIVE_INSIGHT: string :=
    "- Industry or competitive mentions suggest monitoring market positioning in media coverage."

  /** Some common topic mentions competitors, competition or a market. */
  predicate Competitive(common: seq<string>) {
    exists i :: 0 <= i < |common| &&
      (IsSubstring("competitor", common[i]) || IsSubstring("competition", common[i]) || IsSubstring("market", common[i]))
  }

  /** Every insight, before the report keeps the first five. */
  function Insights(company: string, first: string, topical: seq<string>, common: seq<string>): seq<string> {
    [first] + topical + (if Competitive(common) then [COMPETITIVE_INSIGHT] else [])
  }

  /** The insights of report `r`. */
  function InsightsOf(company: string, r: Analysis): seq<string> {
    var stats := r.topicSentiment.stats;
    Insights(company, FirstInsight(company, LeanOf(r.positive, r.negative)),
             TopicInsights(Notable(r.topicSentiment.order, stats), stats), r.commonTopics)
  }

  /**
   * The report keeps between one and five insights: always the distribution insight first,
   * then one per notable topic and the competitive one, as long as they fit.
   */
  lemma {:induction false} InsightsKept(company: string, r: Analysis)
    ensures var kept := Take(InsightsOf(company, r), MAX_INSIGHTS);
      1 <= |kept| <= MAX_INSIGHTS && kept[0] == FirstInsight(company, LeanOf(r.positive, r.negative))
    ensures |InsightsOf(company, r)| ==
      1 + |Notable(r.topicSentiment.order, r.topicSentiment.stats)| + (if Competitive(r.commonTopics) then 1 else 0)
  {
  }

  // ------------------------------------------------------------ the English report

  /** The report up to the number of articles. */
  function Opening(company: string): string {
    "## Comprehensive Sentiment Analysis Report for " + company + "\n\n" + " Overview\n"
    + "Based on an analysis of "
  }

  /**
   * The report after the number of articles, given the topic lines and the insights; a
   * space separates it from the number.
   */
  function Body(company: string, r: Analysis, show: Show, lines: string, insights: seq<string>): string {
    " " + Details(company, r, show, lines, insights)
  }

  function Details(company: string, r: Analysis, show: Show, lines: string, insights: seq<string>): string {
    Facts(company, r, show)
    + TopicSection(company, r.commonTopics, lines)
    + " Strategic Insights\n\n"
    + Join("\n", Take(insights, MAX_INSIGHTS))
  }

  /** The report from the overall sentiment to the key articles. */
  function Facts(company: string, r: Analysis, show: Show): string {
    "news articles, the overall sentiment toward " + company + " is **" + Upper(r.overall)
    + "** with an average sentiment score of **" + show(r.averageScore) + "** (on a scale from -1 to 1).\n\n"
    + " Sentiment Distribution\n"
    + "- **Positive coverage**: " + show(r.positive) + "%\n"
    + "- **Neutral coverage**: " + show(r.neutral) + "%\n"
    + "- **Negative coverage**: " + show(r.negative) + "%\n\n"
    + TrendLine(company, TrendOf(r.positive, r.negative))
    + " Key Articles\n\n"
    + KeyArticle("Most Positive Article", r.mostPositive, show)
    + KeyArticle("Most Negative Article", r.mostNegative, show)
  }

  /** The English report on `r`, with `count` standing for the number of articles. */
  function SummaryText(company: string, r: Analysis, count: string, show: Show): string {
    Opening(company) + count + Rest(company, r, show)
  }

  /** The report after the number of articles. */
  function Rest(company: string, r: Analysis, show: Show): string {
    var stats := r.topicSentiment.stats;
    Body(company, r, show, TopicLines(Described(r), stats, show), InsightsOf(company, r))
  }

  /** The topics the report describes: those of the first seven common topics that have a record. */
  function Described(r: Analysis): (ts: seq<string>)
    ensures forall t :: t in ts ==> t in r.topicSentiment.stats
  {
    Listed(Take(r.commonTopics, DETAILED_TOPICS), r.topicSentiment.stats)
  }

  /**
   * At most seven topics are described, taken in order from the first seven common topics:
   * exactly those of them that have a record.
   */
  lemma DescribedTopics(r: Analysis)
    ensures |Described(r)| <= DETAILED_TOPICS
    ensures var first := Take(r.commonTopics, DETAILED_TOPICS);
      first == r.commonTopics[..|first|]
      && (forall t :: t in Described(r) <==> t in first && t in r.topicSentiment.stats)
      && SubsequenceOf(Described(r), first)
  {
    ListedMembers(Take(r.commonTopics, DETAILED_TOPICS), r.topicSentiment.stats);
    ListedOrdered(Take(r.commonTopics, DETAILED_TOPICS), r.topicSentiment.stats);
  }

  /** When there are common topics, the report carries the lines of the described topics. */
  lemma SummaryDescribes(company: string, r: Analysis, count: string, show: Show)
    requires r.commonTopics != []
    ensures var stats := r.topicSentiment.stats;
      IsSubstring(TopicLines(Described(r), stats, show), SummaryText(company, r, count, show))
  {
    var stats := r.topicSentiment.stats;
    var lines := TopicLines(Described(r), stats, show);
    var insights := InsightsOf(company, r);
    var head, facts := Opening(company) + count, Facts(company, r, show);
    var tail := Join("\n", Take(insights, MAX_INSIGHTS));
    assert SummaryText(company, r, count, show)
        == head + (" " + (facts + (TopicIntro(company) + lines + "\n") + " Strategic Insights\n\n" + tail));
    SectionInReport(head, facts, TopicIntro(company), lines, " Strategic Insights\n\n", tail);
  }

  /** The topic lines of a section occur in a report laid out as the English one is. */
  lemma SectionInReport(head: string, facts: string, intro: string, lines: string, heading: string, tail: string)
    ensures IsSubstring(lines, head + (" " + (facts + (intro + lines + "\n") + heading + tail)))
  {
    var section := intro + lines + "\n";
    InMiddle(intro, lines, "\n");
    SubstringPrepend(lines, facts, section);
    SubstringAppend(lines, facts + section, heading);
    SubstringAppend(lines, facts + section + heading, tail);
    SubstringPrepend(lines, " ", facts + section + heading + tail);
    SubstringPrepend(lines, head, " " + (facts + section + heading + tail));
  }

  /** A space separates the number of articles from the rest of the report. */
  lemma {:induction false} RestStartsWithSpace(company: string, r: Analysis, show: Show)
    ensures Rest(company, r, show) != [] && Rest(company, r, show)[0] == ' '
  {
    var stats := r.topicSentiment.stats;
    CharAt(" ", Details(company, r, show, TopicLines(Described(r), stats, show), InsightsOf(company, r)), 0);
  }

  /**
   * `create_summary` as written: it overwrites its `total_articles` argument with 10 before
   * using it, so every report claims ten articles.
   */
  function SummaryAsWritten(company: string, r: Analysis, totalArticles: int, show: Show): string {
    SummaryText(company, r, "10", show)
  }

  /** Three articles and seven articles give the same report, both claiming ten. */
  lemma SummaryIgnoresCount(company: string, r: Analysis, show: Show)
    ensures SummaryAsWritten(company, r, 3, show) == SummaryAsWritten(company, r, 7, show)
    ensures SummaryAsWritten(company, r, 3, show) == SummaryText(company, r, NatToString(10), show)
  {
    assert NatToString(10) == "10";
  }

  /** With the count written out, the report tells different article counts apart. */
  lemma {:induction false} SummaryRecordsCount(company: string, r: Analysis, show: Show, a: nat, b: nat)
    requires SummaryText(company, r, NatToString(a), show) == SummaryText(company, r, NatToString(b), show)
    ensures a == b
  {
    RestStartsWithSpace(company, r, show);
    SameDigitsAfter(Opening(company), NatToString(a), NatToString(b), Rest(company, r, show));
    NatToStringInjective(a, b);
  }

  lemma {:induction false} ListedStep(topics: seq<string>, i: nat, stats: map<string, TopicStats>)
    requires i < |topics|
    ensures topics[i] in stats ==> Listed(topics[..i + 1], stats) == Listed(topics[..i], stats) + [topics[i]]
    ensures topics[i] !in stats ==> Listed(topics[..i + 1], stats) == Listed(topics[..i], stats)
  {
    assert topics[..i + 1][..i] == topics[..i];
    assert Listed(topics[..i], stats) + [] == Listed(topics[..i], stats);
  }

  lemma {:induction false} TopicLinesStep(listed: seq<string>, t: string, stats: map<string, TopicStats>, show: Show)
    requires forall u :: u in listed ==> u in stats
    requires t in stats
    ensures TopicLines(listed + [t], stats, show) == TopicLines(listed, stats, show) + TopicLine(t, stats[t], show)
  {
    assert (listed + [t])[..|listed|] == listed;
  }

  lemma {:induction false} NotableStep(order: seq<string>, i: nat, stats: map<string, TopicStats>)
    requires i < |order|
    ensures NotableIn(order[i], stats) ==>
      Notable(order[..i + 1], stats) == Notable(order[..i], stats) + [order[i]]
    ensures !NotableIn(order[i], stats) ==>
      Notable(order[..i + 1], stats) == Notable(order[..i], stats)
  {
    assert order[..i + 1][..i] == order[..i];
    assert Notable(order[..i], stats) + [] == Notable(order[..i], stats);
  }

  lemma {:induction false} TopicInsightsStep(notable: seq<string>, t: string, stats: map<string, TopicStats>)
    requires forall u :: u in notable ==> u in stats
    requires t in stats
    ensures TopicInsights(notable + [t], stats) == TopicInsights(notable, stats) + [NotableLine(t, stats[t])]
  {
    assert (notable + [t])[..|notable|] == notable;
  }

  /** The topic-analysis loop: one line for each of `detailed` that has a record. */
  method CollectTopicLines(detailed: seq<string>, stats: map<string, TopicStats>, show: Show) returns (lines: string)
    ensures lines == TopicLines(Listed(detailed, stats), stats, show)
  {
    lines := "";
    for i := 0 to |detailed|
      invariant lines == TopicLines(Listed(detailed[..i], stats), stats, show)
    {
      var topic := detailed[i];
      ListedStep(detailed, i, stats);
      if topic in stats {
        TopicLinesStep(Listed(detailed[..i], stats), topic, stats, show);
        lines := lines + TopicLine(topic, stats[topic], show);
      }
    }
    assert detailed[..|detailed|] == detailed;
  }

  /** The topic-insight loop over the table: one insight per notable topic. */
  method CollectTopicInsights(order: seq<string>, stats: map<string, TopicStats>) returns (topical: seq<string>)
    ensures topical == TopicInsights(Notable(order, stats), stats)
  {
    topical := [];
    for i := 0 to |order|
      invariant topical == TopicInsights(Notable(order[..i], stats), stats)
    {
      var topic := order[i];
      NotableStep(order, i, stats);
      if NotableIn(topic, stats) {
        TopicInsightsStep(Notable(order[..i], stats), topic, stats);
        topical := topical + [NotableLine(topic, stats[topic])];
      }
    }
    assert order[..|order|] == order;
  }

  /**
   * `create_summary(company_name, analysis_result, total_articles)` with the count it is
   * given: the topic lines and the insights are collected by the source's two loops.
   */
  method CreateSummary(company: string, r: Analysis, totalArticles: nat, show: Show) returns (summary: string)
    ensures summary == SummaryText(company, r, NatToString(totalArticles), show)
  {
    var stats := r.topicSentiment.stats;
    var lines := CollectTopicLines(Take(r.commonTopics, DETAILED_TOPICS), stats, show);
    var topical := CollectTopicInsights(r.topicSentiment.order, stats);
    var insights := Insights(company, FirstInsight(company, LeanOf(r.positive, r.negative)), topical, r.commonTopics);
    summary := Opening(company) + NatToString(totalArticles) + Body(company, r, show, lines, insights);
  }

  // ------------------------------------------------------------ the Hindi report

  const HINDI_POSITIVE: string := "सकारात्मक"
  const HINDI_NEUTRAL: string := "तटस्थ"
  const HINDI_NEGATIVE: string := "नकारात्मक"

  /** `_get_hindi_sentiment`: the two leaning labels are translated, anything else is neutral. */
  function HindiSentiment(sentiment: string): (w: string)
    ensures w == HINDI_POSITIVE <==> sentiment == Sentiment.POSITIVE
    ensures w == HINDI_NEGATIVE <==> sentiment == Sentiment.NEGATIVE
    ensures w == HINDI_NEUTRAL <==> sentiment != Sentiment.POSITIVE && sentiment != Sentiment.NEGATIVE
  {
    if sentiment == Sentiment.POSITIVE then HINDI_POSITIVE
    else if sentiment == Sentiment.NEGATIVE then HINDI_NEGATIVE
    else HINDI_NEUTRAL
  }

  /** On the three labels the translation loses nothing: different labels, different words. */
  lemma {:induction false} HindiSentimentInjective(a: string, b: string)
    requires Sentiment.IsLabel(a) && Sentiment.IsLabel(b)
    requires HindiSentiment(a) == HindiSentiment(b)
    ensures a == b
  {
  }

  function HindiLeanLine(company: string, l: Lean): string {
    match l
    case Favourable => "- " + company + " को मुख्य रूप से सकारात्मक समाचार कवरेज मिल रहा है।\n"
    case Unfavourable => "- " + company + " वर्तमान में महत्वपूर्ण नकारात्मक प्रेस का सामना कर रहा है।\n"
    case Mixed => "- " + company + " का मिश्रित या संतुलित समाचार कवरेज है।\n"
  }

  function HindiHeading(company: string): string {
    company + " के बारे में समाचार विश्लेषण रिपोर्ट\n\n"
  }

  /** The Hindi report after its heading and the number of articles, from which a space separates it. */
  function HindiBody(company: string, r: Analysis, show: Show): string {
    " " + HindiDetails(company, r, show)
  }

  function HindiDetails(company: string, r: Analysis, show: Show): string {
    HindiFacts(company, r, show) + HindiLeanLine(company, LeanOf(r.positive, r.negative))
  }

  /** The Hindi report from the count to the heading of its insight. */
  function HindiFacts(company: string, r: Analysis, show: Show): string {
    HindiFigures(company, r, show)
    + (if r.commonTopics == [] then "" else HindiTopicsLine(r))
    + "मुख्य अंतर्दृष्टि:\n"
  }

  function HindiFigures(company: string, r: Analysis, show: Show): string {
    "समाचार लेखों के आधार पर, " + company + " के बारे में समग्र भावना " + HindiSentiment(r.overall) + " है।\n\n"
    + "भावना वितरण:\n"
    + "- सकारात्मक: " + show(r.positive) + "%\n"
    + "- तटस्थ: " + show(r.neutral) + "%\n"
    + "- नकारात्मक: " + show(r.negative) + "%\n\n"
    + "औसत भावना स्कोर: " + show(r.averageScore) + " (-1 से 1 के पैमाने पर)\n\n"
  }

  /** The topics the Hindi report names: the first five common topics. */
  function Named(r: Analysis): seq<string> {
    Take(r.commonTopics, NAMED_TOPICS)
  }

  function HindiTopicsLine(r: Analysis): string {
    "समाचार कवरेज में सामान्य विषय: " + Join(", ", Named(r)) + "\n\n"
  }

  /** `create_hindi_summary(company_name, analysis_result, articles)`. */
  function CreateHindiSummary(company: string, r: Analysis, articles: seq<ArticleDict>, show: Show): string {
    HindiHeading(company) + NatToString(|articles|) + HindiBody(company, r, show)
  }

  /** The Hindi report opens with its heading. */
  lemma {:induction false} HindiOpens(company: string, r: Analysis, articles: seq<ArticleDict>, show: Show)
    ensures var s := CreateHindiSummary(company, r, articles, show);
      |HindiHeading(company)| <= |s| && s[..|HindiHeading(company)|] == HindiHeading(company)
  {
    var h, rest := HindiHeading(company), NatToString(|articles|) + HindiBody(company, r, show);
    assert CreateHindiSummary(company, r, articles, show) == h + rest;
    assert (h + rest)[..|h|] == h;
  }

  /**
   * The Hindi report closes on its one insight, chosen by the same rule as the English
   * report's first insight.
   */
  lemma {:induction false} HindiCloses(company: string, r: Analysis, articles: seq<ArticleDict>, show: Show)
    ensures var s := CreateHindiSummary(company, r, articles, show);
      var last := HindiLeanLine(company, LeanOf(r.positive, r.negative));
      |last| <= |s| && s[|s| - |last|..] == last
  {
    var front := HindiHeading(company) + NatToString(|articles|) + " " + HindiFacts(company, r, show);
    var last := HindiLeanLine(company, LeanOf(r.positive, r.negative));
    assert CreateHindiSummary(company, r, articles, show) == front + last;
    assert (front + last)[|front|..] == last;
  }

  /**
   * The Hindi report names the first five common topics (all of them when there are fewer),
   * in their order, whenever there are common topics.
   */
  lemma HindiNamesTopics(company: string, r: Analysis, articles: seq<ArticleDict>, show: Show)
    ensures |Named(r)| == if |r.commonTopics| < NAMED_TOPICS then |r.commonTopics| else NAMED_TOPICS
    ensures Named(r) == r.commonTopics[..|Named(r)|]
    ensures r.commonTopics != [] ==> IsSubstring(HindiTopicsLine(r), CreateHindiSummary(company, r, articles, show))
  {
    if r.commonTopics != [] {
      var line, figures := HindiTopicsLine(r), HindiFigures(company, r, show);
      var head := HindiHeading(company) + NatToString(|articles|);
      var last := HindiLeanLine(company, LeanOf(r.positive, r.negative));
      assert CreateHindiSummary(company, r, articles, show)
          == head + (" " + (figures + line + "मुख्य अंतर्दृष्टि:\n" + last));
      LineInReport(head, figures, line, "मुख्य अंतर्दृष्टि:\n", last);
    }
  }

  /** A line occurs in a report laid out as the Hindi one is. */
  lemma LineInReport(head: string, figures: string, line: string, heading: string, last: string)
    ensures IsSubstring(line, head + (" " + (figures + line + heading + last)))
  {
    SubstringOfItself(line);
    SubstringPrepend(line, figures, line);
    SubstringAppend(line, figures + line, heading);
    SubstringAppend(line, figures + line + heading, last);
    SubstringPrepend(line, " ", figures + line + heading + last);
    SubstringPrepend(line, head, " " + (figures + line + heading + last));
  }

  /** The Hindi report tells different numbers of articles apart. */
  lemma {:induction false} HindiRecordsCount(company: string, r: Analysis, a: seq<ArticleDict>, b: seq<ArticleDict>, show: Show)
    requires CreateHindiSummary(company, r, a, show) == CreateHindiSummary(company, r, b, show)
    ensures |a| == |b|
  {
    var h := HindiHeading(company);
    var rest := HindiBody(company, r, show);
    CharAt(" ", HindiDetails(company, r, show), 0);
    SameDigitsAfter(h, NatToString(|a|), NatToString(|b|), rest);
    NatToStringInjective(|a|, |b|);
  }
}
