/**
 * Topic extraction as `NewsArticle.extract_topics` does it: keep the alphanumeric,
 * non-stopword tokens; count every token longer than three characters once and every
 * adjacent pair of such tokens twice; rank the candidates by weight (stable, so ties stay
 * in dictionary order: unigrams by first occurrence, then new bigrams by first
 * occurrence); then admit candidates greedily, skipping any that is a substring of, or
 * contains, one already admitted.
 */
module Topics {
  import opened Text
  import opened Sorting
  import opened Counter

  /** The news-specific words added to the English stopword list. */
  const CUSTOM_STOPWORDS: set<string> :=
    {"said", "says", "reported", "according", "company", "companies", "business"}

  // ------------------------------------------------------------ filtering

  predicate KeepToken(w: string, stops: set<string>) {
    IsAlnum(w) && w !in stops
  }

  /** `[w for w in words if w.isalnum() and w not in stop_words]`. */
  function FilterTokens(tokens: seq<string>, stops: set<string>): (r: seq<string>)
    ensures forall k :: 0 <= k < |r| ==> KeepToken(r[k], stops)
    ensures forall w :: w in r <==> w in tokens && KeepToken(w, stops)
  {
    if tokens == [] then []
    else
      var init, last := tokens[..|tokens| - 1], tokens[|tokens| - 1];
      assert tokens == init + [last];
      FilterTokens(init, stops) + (if KeepToken(last, stops) then [last] else [])
  }

  // --------------------------------------------------------- candidates

  /** Number of adjacent pairs, `len(list(nltk.bigrams(words)))`. */
  function NumPairs(words: seq<string>): nat {
    if |words| == 0 then 0 else |words| - 1
  }

  /** The bigram phrase `f"{w1} {w2}"` starting at position `i`. */
  function Phrase(words: seq<string>, i: nat): string
    requires i + 1 < |words|
  {
    words[i] + " " + words[i + 1]
  }

  /** Both words of the pair at `i` are longer than three characters. */
  predicate LongPair(words: seq<string>, i: nat)
    requires i + 1 < |words|
  {
    |words[i]| > 3 && |words[i + 1]| > 3
  }

  predicate IsUnigramTopic(words: seq<string>, k: string) {
    |k| > 3 && exists i :: 0 <= i < |words| && words[i] == k
  }

  predicate IsBigramTopic(words: seq<string>, k: string) {
    exists i: nat :: i + 1 < |words| && LongPair(words, i) && Phrase(words, i) == k
  }

  /** How often `k` occurs as a token longer than three characters. */
  function LongCount(words: seq<string>, k: string): nat {
    if words == [] then 0
    else LongCount(words[..|words| - 1], k) + (if words[|words| - 1] == k && |k| > 3 then 1 else 0)
  }

  /** How often `k` is the phrase of one of the first `m` long pairs. */
  function PairCount(words: seq<string>, k: string, m: nat): nat
    requires m <= NumPairs(words)
  {
    if m == 0 then 0
    else PairCount(words, k, m - 1) + (if LongPair(words, m - 1) && Phrase(words, m - 1) == k then 1 else 0)
  }

  /** Every count in the dictionary is positive. */
  ghost predicate Positive(c: Counter) {
    forall k :: k in c.count ==> c.count[k] > 0
  }

  /** The first counting loop: `word_freq[word] += 1` for every token longer than three characters. */
  function UnigramPass(words: seq<string>): (c: Counter)
    ensures c.Valid() && Positive(c)
    ensures forall k :: c.Get(k) == LongCount(words, k)
  {
    if words == [] then Empty()
    else
      var c := UnigramPass(words[..|words| - 1]);
      var w := words[|words| - 1];
      if |w| > 3 then c.Add(w, 1) else c
  }

  /** The second counting loop over the first `m` pairs: `word_freq[phrase] += 2` for every long pair. */
  function BigramPass(c0: Counter, words: seq<string>, m: nat): (c: Counter)
    requires m <= NumPairs(words)
    ensures c0.Valid() && Positive(c0) ==> c.Valid() && Positive(c)
    ensures forall k :: c.Get(k) == c0.Get(k) + 2 * PairCount(words, k, m)
  {
    if m == 0 then c0
    else
      var c := BigramPass(c0, words, m - 1);
      if LongPair(words, m - 1) then c.Add(Phrase(words, m - 1), 2) else c
  }

  /** The filled `word_freq` dictionary. */
  function Weights(words: seq<string>): (c: Counter)
    ensures c.Valid()
  {
    BigramPass(UnigramPass(words), words, NumPairs(words))
  }

  lemma {:induction false} LongCountPositive(words: seq<string>, k: string)
    ensures LongCount(words, k) > 0 <==> IsUnigramTopic(words, k)
  {
    if words != [] {
      var init := words[..|words| - 1];
      LongCountPositive(init, k);
      if IsUnigramTopic(init, k) {
        var i :| 0 <= i < |init| && init[i] == k;
        assert words[i] == k;
      }
      if IsUnigramTopic(words, k) && words[|words| - 1] != k {
        var i :| 0 <= i < |words| && words[i] == k;
        assert init[i] == k;
      }
    }
  }

  lemma {:induction false} PairCountPositive(words: seq<string>, k: string, m: nat)
    requires m <= NumPairs(words)
    ensures PairCount(words, k, m) > 0
        <==> exists i: nat :: i < m && LongPair(words, i) && Phrase(words, i) == k
  {
    if m > 0 {
      PairCountPositive(words, k, m - 1);
    }
  }

  /**
   * The weight of a candidate: once per occurrence as a long token, plus twice per
   * occurrence as a long pair, and the dictionary holds exactly the unigram and bigram
   * candidates.
   */
  lemma {:induction false} WeightOf(words: seq<string>, k: string)
    ensures Weights(words).Valid()
    ensures Weights(words).Get(k) == LongCount(words, k) + 2 * PairCount(words, k, NumPairs(words))
    ensures k in Weights(words).count <==> IsUnigramTopic(words, k) || IsBigramTopic(words, k)
  {
    LongCountPositive(words, k);
    PairCountPositive(words, k, NumPairs(words));
  }

  // ------------------------------------------------------------ ranking

  /** The sort key of `sorted(word_freq.items(), key=lambda x: x[1], reverse=True)`. */
  function ByWeightDesc(p: (string, int)): real {
    -(p.1 as real)
  }

  /** The candidates, heaviest first, ties in dictionary order. */
  function Ranked(words: seq<string>): seq<(string, int)> {
    SortBy(Weights(words).Items(), ByWeightDesc)
  }

  // ---------------------------------------------------------- admission

  /** `any(word in topic or topic in word for topic in unique_topics)`. */
  predicate Clashes(w: string, admitted: seq<string>) {
    exists k :: 0 <= k < |admitted| && (IsSubstring(w, admitted[k]) || IsSubstring(admitted[k], w))
  }

  /** No entry is a substring of another (so, in particular, no entry repeats). */
  predicate SubstringFree(ts: seq<string>) {
    forall i, j :: 0 <= i < |ts| && 0 <= j < |ts| && i != j ==> !IsSubstring(ts[i], ts[j])
  }

  /**
   * How many topics the admission loop can return: it checks `len >= num_topics` only
   * after an append, so a non-positive `num_topics` still lets one topic through.
   */
  function Bound(n: int): nat {
    if n >= 1 then n else 1
  }

  /** The admission loop, continued from the topics admitted so far. */
  function Greedy(ranked: seq<(string, int)>, n: int, admitted: seq<string>): seq<string>
    decreases |ranked|
  {
    if ranked == [] then admitted
    else
      var w := ranked[0].0;
      if Clashes(w, admitted) then Greedy(ranked[1..], n, admitted)
      else if |admitted| + 1 >= n then admitted + [w]
      else Greedy(ranked[1..], n, admitted + [w])
  }

  /** The topics `extract_topics` returns for the filtered tokens `words`. */
  function TopicsOf(words: seq<string>, n: int): seq<string> {
    Greedy(Ranked(words), n, [])
  }

  lemma {:induction false} GreedyExtends(ranked: seq<(string, int)>, n: int, admitted: seq<string>)
    ensures var r := Greedy(ranked, n, admitted);
      |admitted| <= |r| && r[..|admitted|] == admitted
      && forall t :: t in r ==> t in admitted || exists p :: p in ranked && p.0 == t
    decreases |ranked|
  {
    if ranked != [] {
      var w := ranked[0].0;
      if Clashes(w, admitted) {
        GreedyExtends(ranked[1..], n, admitted);
      } else if |admitted| + 1 < n {
        GreedyExtends(ranked[1..], n, admitted + [w]);
        var r := Greedy(ranked, n, admitted);
        assert r[..|admitted| + 1][..|admitted|] == r[..|admitted|];
      }
    }
  }

  lemma {:induction false} GreedyBounded(ranked: seq<(string, int)>, n: int, admitted: seq<string>)
    requires |admitted| < Bound(n)
    ensures |Greedy(ranked, n, admitted)| <= Bound(n)
    decreases |ranked|
  {
    if ranked != [] {
      var w := ranked[0].0;
      if Clashes(w, admitted) {
        GreedyBounded(ranked[1..], n, admitted);
      } else if |admitted| + 1 < n {
        GreedyBounded(ranked[1..], n, admitted + [w]);
      }
    }
  }

  lemma {:induction false} GreedySubstringFree(ranked: seq<(string, int)>, n: int, admitted: seq<string>)
    requires SubstringFree(admitted)
    ensures SubstringFree(Greedy(ranked, n, admitted))
    decreases |ranked|
  {
    if ranked != [] {
      var w := ranked[0].0;
      if Clashes(w, admitted) {
        GreedySubstringFree(ranked[1..], n, admitted);
      } else {
        var a := admitted + [w];
        forall i, j | 0 <= i < |a| && 0 <= j < |a| && i != j ensures !IsSubstring(a[i], a[j]) {
          if j == |admitted| {
            assert !IsSubstring(admitted[i], w);
          } else if i == |admitted| {
            assert !IsSubstring(w, admitted[j]);
          }
        }
        if |admitted| + 1 < n {
          GreedySubstringFree(ranked[1..], n, a);
        }
      }
    }
  }

  /**
   * Maximality: when the loop stops short of its bound, every candidate clashes with an
   * admitted topic (an admitted topic clashes with itself).
   */
  lemma {:induction false} GreedyMaximal(ranked: seq<(string, int)>, n: int, admitted: seq<string>)
    requires |admitted| < Bound(n)
    ensures var r := Greedy(ranked, n, admitted);
      |r| < Bound(n) ==> forall p :: p in ranked ==> Clashes(p.0, r)
    decreases |ranked|
  {
    if ranked != [] {
      var w := ranked[0].0;
      var r := Greedy(ranked, n, admitted);
      if Clashes(w, admitted) {
        GreedyMaximal(ranked[1..], n, admitted);
        GreedyExtends(ranked[1..], n, admitted);
        var k :| 0 <= k < |admitted| && (IsSubstring(w, admitted[k]) || IsSubstring(admitted[k], w));
        assert r[k] == admitted[k];
      } else if |admitted| + 1 < n {
        GreedyMaximal(ranked[1..], n, admitted + [w]);
        GreedyExtends(ranked[1..], n, admitted + [w]);
        SubstringOfItself(w);
        assert r[|admitted|] == w;
      }
      if |r| < Bound(n) {
        forall p | p in ranked ensures Clashes(p.0, r) {
          if p != ranked[0] {
            assert p in ranked[1..];
          }
        }
      }
    }
  }

  /** Admitted topics keep their rank order: their weights never increase along the list. */
  ghost predicate NonIncreasing(ts: seq<string>, c: Counter) {
    forall i, j :: 0 <= i < j < |ts| ==> c.Get(ts[i]) >= c.Get(ts[j])
  }

  lemma {:induction false} GreedyOrdered(ranked: seq<(string, int)>, n: int, admitted: seq<string>, c: Counter)
    requires SortedBy(ranked, ByWeightDesc)
    requires forall p :: p in ranked ==> c.Get(p.0) == p.1
    requires NonIncreasing(admitted, c)
    requires forall t, p :: t in admitted && p in ranked ==> c.Get(t) >= p.1
    ensures NonIncreasing(Greedy(ranked, n, admitted), c)
    decreases |ranked|
  {
    if ranked != [] {
      var w := ranked[0].0;
      var rest := ranked[1..];
      assert SortedBy(rest, ByWeightDesc);
      forall p | p in rest ensures ranked[0].1 >= p.1 {
        var j :| 0 <= j < |rest| && rest[j] == p;
        assert ranked[j + 1] == p;
      }
      if Clashes(w, admitted) {
        GreedyOrdered(rest, n, admitted, c);
      } else {
        var a := admitted + [w];
        assert c.Get(w) == ranked[0].1;
        forall i, j | 0 <= i < j < |a| ensures c.Get(a[i]) >= c.Get(a[j]) {
          if j == |admitted| {
            assert a[i] in admitted;
          }
        }
        if |admitted| + 1 < n {
          GreedyOrdered(rest, n, a, c);
        }
      }
    }
  }

  // ----------------------------------------------------------- the loops

  /** The two counting loops, filling `word_freq` in insertion order. */
  method CountWeights(words: seq<string>) returns (freq: Counter)
    ensures freq == Weights(words)
  {
    freq := CountLongWords(words);
    freq := CountLongPairs(freq, words);
  }

  /** The first loop: every token longer than three characters adds 1. */
  method CountLongWords(words: seq<string>) returns (freq: Counter)
    ensures freq == UnigramPass(words)
  {
    freq := Empty();
    var i := 0;
    while i < |words|
      invariant 0 <= i <= |words|
      invariant freq == UnigramPass(words[..i])
    {
      assert words[..i + 1][..i] == words[..i];
      if |words[i]| > 3 {
        freq := freq.Add(words[i], 1);
      }
      i := i + 1;
    }
    assert words[..i] == words;
  }

  /** The second loop: every adjacent pair of long tokens adds 2 to its phrase. */
  method CountLongPairs(c0: Counter, words: seq<string>) returns (freq: Counter)
    ensures freq == BigramPass(c0, words, NumPairs(words))
  {
    freq := c0;
    var m := 0;
    while m < NumPairs(words)
      invariant 0 <= m <= NumPairs(words)
      invariant freq == BigramPass(c0, words, m)
    {
      if LongPair(words, m) {
        freq := freq.Add(Phrase(words, m), 2);
      }
      m := m + 1;
    }
  }

  /** The admission loop: walks the ranked candidates and stops once `n` are admitted. */
  method SelectTopics(ranked: seq<(string, int)>, n: int) returns (unique: seq<string>)
    ensures unique == Greedy(ranked, n, [])
  {
    unique := [];
    var i := 0;
    while i < |ranked|
      invariant 0 <= i <= |ranked|
      invariant Greedy(ranked, n, []) == Greedy(ranked[i..], n, unique)
    {
      var w := ranked[i].0;
      assert ranked[i..][1..] == ranked[i + 1..];
      if !Clashes(w, unique) {
        unique := unique + [w];
        if |unique| >= n {
          return;
        }
      }
      i := i + 1;
    }
  }

  /**
   * Topic extraction from the filtered tokens: at most `n` topics (one when `n` is not
   * positive), in non-increasing weight, none a substring of another, each a long token
   * or the phrase of a long adjacent pair; and if fewer than the bound come out, every
   * candidate clashes with one that did.
   */
  method ComputeTopics(words: seq<string>, n: int) returns (topics: seq<string>)
    ensures topics == TopicsOf(words, n)
    ensures |topics| <= Bound(n)
    ensures n >= 1 ==> |topics| <= n
    ensures SubstringFree(topics)
    ensures NonIncreasing(topics, Weights(words))
    ensures forall t :: t in topics ==> IsUnigramTopic(words, t) || IsBigramTopic(words, t)
    ensures |topics| < Bound(n) ==>
      forall t :: IsUnigramTopic(words, t) || IsBigramTopic(words, t) ==> Clashes(t, topics)
  {
    var freq := CountWeights(words);
    WeightOf(words, "");
    var items := freq.Items();
    var ranked := SortBy(items, ByWeightDesc);
    topics := SelectTopics(ranked, n);
    TopicsOfShape(words, n);
    TopicsOfCandidates(words, n);
  }

  /** The ranked pairs carry the dictionary's weights. */
  lemma {:induction false} RankedWeights(words: seq<string>)
    ensures Weights(words).Valid()
    ensures forall p :: p in Ranked(words) ==> Weights(words).Get(p.0) == p.1 && p.0 in Weights(words).count
  {
    var c := Weights(words);
    WeightOf(words, "");
    var items := c.Items();
    var ranked := Ranked(words);
    assert multiset(ranked) == multiset(items);
    forall p | p in ranked ensures c.Get(p.0) == p.1 && p.0 in c.count {
      assert p in multiset(items);
      var i :| 0 <= i < |items| && items[i] == p;
    }
  }

  lemma {:induction false} RankedCovers(words: seq<string>)
    ensures forall t :: t in Weights(words).count ==> exists p :: p in Ranked(words) && p.0 == t
  {
    var c := Weights(words);
    WeightOf(words, "");
    var items := c.Items();
    var ranked := Ranked(words);
    assert multiset(ranked) == multiset(items);
    forall t | t in c.count ensures exists p :: p in ranked && p.0 == t {
      assert t in c.order;
      var i :| 0 <= i < |c.order| && c.order[i] == t;
      assert items[i] in multiset(ranked);
    }
  }

  /** The shape of the result: bounded, free of substrings, heaviest first. */
  lemma {:induction false} TopicsOfShape(words: seq<string>, n: int)
    ensures |TopicsOf(words, n)| <= Bound(n)
    ensures SubstringFree(TopicsOf(words, n))
    ensures NonIncreasing(TopicsOf(words, n), Weights(words))
  {
    var ranked := Ranked(words);
    RankedWeights(words);
    GreedyBounded(ranked, n, []);
    GreedySubstringFree(ranked, n, []);
    GreedyOrdered(ranked, n, [], Weights(words));
  }

  /**
   * Where the result comes from: every topic is a candidate, and a result short of the
   * bound leaves no candidate that does not clash with it.
   */
  lemma {:induction false} TopicsOfCandidates(words: seq<string>, n: int)
    ensures forall t :: t in TopicsOf(words, n) ==> IsUnigramTopic(words, t) || IsBigramTopic(words, t)
    ensures |TopicsOf(words, n)| < Bound(n) ==>
      forall t :: IsUnigramTopic(words, t) || IsBigramTopic(words, t) ==> Clashes(t, TopicsOf(words, n))
  {
    var ranked := Ranked(words);
    RankedWeights(words);
    RankedCovers(words);
    var r := TopicsOf(words, n);
    GreedyExtends(ranked, n, []);
    GreedyMaximal(ranked, n, []);
    forall t | t in r ensures IsUnigramTopic(words, t) || IsBigramTopic(words, t) {
      var p :| p in ranked && p.0 == t;
      WeightOf(words, t);
    }
    if |r| < Bound(n) {
      forall t | IsUnigramTopic(words, t) || IsBigramTopic(words, t) ensures Clashes(t, r) {
        WeightOf(words, t);
        var p :| p in ranked && p.0 == t;
      }
    }
  }
}
