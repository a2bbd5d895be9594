/**
 * The three-way labelling rule of the sentiment scorer (`get_sentiment_label` in
 * utils.py, written out again inline in `NewsArticle.analyze_sentiment`): a compound
 * polarity score of at least 0.05 leans positive, one of at most -0.05 leans negative,
 * anything strictly between is neutral.
 */
module Sentiment {
  import opened Wrappers

  const POSITIVE: string := "positive"
  const NEUTRAL: string := "neutral"
  const NEGATIVE: string := "negative"

  /** The width of the neutral band on either side of zero. */
  const THRESHOLD: real := 0.05

  predicate IsLabel(s: string) {
    s == POSITIVE || s == NEUTRAL || s == NEGATIVE
  }

  /** `get_sentiment_label(score)`: always exactly one of the three labels, chosen by the thresholds. */
  function LabelFor(score: real): (r: string)
    ensures IsLabel(r)
    ensures r == POSITIVE <==> score >= THRESHOLD
    ensures r == NEGATIVE <==> score <= -THRESHOLD
    ensures r == NEUTRAL <==> -THRESHOLD < score < THRESHOLD
  {
    if score >= THRESHOLD then POSITIVE
    else if score <= -THRESHOLD then NEGATIVE
    else NEUTRAL
  }

  /** Position of a label on the negative-to-positive axis. */
  function Rank(name: string): int {
    if name == POSITIVE then 1 else if name == NEGATIVE then -1 else 0
  }

  /** A higher score never gets a more negative label. */
  lemma LabelMonotone(a: real, b: real)
    requires a <= b
    ensures Rank(LabelFor(a)) <= Rank(LabelFor(b))
  {
  }

  /** The boundary cases: both thresholds belong to the leaning side. */
  lemma LabelBoundaries()
    ensures LabelFor(0.05) == POSITIVE && LabelFor(-0.05) == NEGATIVE
    ensures LabelFor(0.0) == NEUTRAL && LabelFor(0.0499) == NEUTRAL
    ensures LabelFor(-0.0501) == NEGATIVE
  {
  }

  /**
   * What scoring an article leaves behind, given what the lexicon returned for its text
   * (`None` when the analyser could not be built or raised): the compound score and its
   * label, or `('neutral', 0)` on failure. Either way the label agrees with the score.
   */
  function Outcome(compound: Option<real>): (r: (string, real))
    ensures r.0 == LabelFor(r.1)
    ensures compound.Some? ==> r.1 == compound.value
    ensures compound.None? ==> r == (NEUTRAL, 0.0)
  {
    match compound
    case None => (NEUTRAL, 0.0)
    case Some(c) => (LabelFor(c), c)
  }
}
