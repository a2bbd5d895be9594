/**
 * The shared helpers of the pipeline: text cleaning, a frequency-based keyword extractor
 * and the conversion of Python values to a JSON-serialisable shape.
 *
 * NLTK's `word_tokenize` is only ever applied here to cleaned text, which holds nothing
 * but word characters and whitespace; on such text it is modelled as `str.split()`.
 */
module Utils {
  import opened Text
  import opened Sorting
  import opened Counter
  import Topics

  // ------------------------------------------------------------ clean_text

  /** A character of the regex class `\w`, restricted to ASCII. */
  predicate IsWordChar(c: char) {
    IsAlnumChar(c) || c == '_'
  }

  /** What survives `re.sub(r'[^\w\s]', '', …)` followed by `re.sub(r'\d+', '', …)`. */
  predicate Survives(c: char) {
    (IsWordChar(c) || IsSpace(c)) && !IsDigit(c)
  }

  /** Both substitutions: every character that is neither a word character nor whitespace goes, and so does every digit. */
  function StripSpecials(s: string): (r: string)
    ensures |r| <= |s|
    ensures forall i :: 0 <= i < |r| ==> Survives(r[i])
  {
    if s == [] then []
    else (if Survives(s[0]) then [s[0]] else []) + StripSpecials(s[1..])
  }

  /** `[w for w in ws if w not in stops]`. */
  function DropStopwords(ws: seq<string>, stops: set<string>): (r: seq<string>)
    ensures |r| <= |ws|
    ensures forall w :: w in r <==> w in ws && w !in stops
  {
    if ws == [] then []
    else (if ws[0] in stops then [] else [ws[0]]) + DropStopwords(ws[1..], stops)
  }

  /**
   * `clean_text`: strip specials and digits, lower-case, split into words, drop the
   * stopwords and join the rest with single spaces. Empty text gives the empty string.
   */
  function CleanText(text: string, english: set<string>): string {
    if text == "" then ""
    else Join(" ", DropStopwords(Split(Lower(StripSpecials(text))), english))
  }

  /** A character that clean text may hold: a survivor that is not an upper-case letter. */
  predicate CleanChar(c: char) {
    Survives(c) && !('A' <= c <= 'Z')
  }

  predicate IsClean(s: string) {
    forall i :: 0 <= i < |s| ==> CleanChar(s[i])
  }

  lemma {:induction false} StripSpecialsKeepsSurvivors(s: string)
    requires forall i :: 0 <= i < |s| ==> Survives(s[i])
    ensures StripSpecials(s) == s
  {
    if s != [] {
      StripSpecialsKeepsSurvivors(s[1..]);
      assert [s[0]] + s[1..] == s;
    }
  }

  lemma LowerOfSurvivors(s: string)
    requires forall i :: 0 <= i < |s| ==> Survives(s[i])
    ensures IsClean(Lower(s))
  {
    forall i | 0 <= i < |s| ensures CleanChar(Lower(s)[i]) {
      assert Lower(s)[i] == LowerChar(s[i]);
    }
  }

  lemma {:induction false} SplitOfClean(s: string)
    requires IsClean(s)
    ensures forall k :: 0 <= k < |Split(s)| ==> IsClean(Split(s)[k])
    decreases |s|
  {
    if s != [] {
      if IsSpace(s[0]) {
        SplitOfClean(s[1..]);
      } else {
        var w := Word(s);
        assert IsClean(w) by {
          forall i | 0 <= i < |w| ensures CleanChar(w[i]) {
            assert w[i] == s[i];
          }
        }
        SplitOfClean(s[|w|..]);
        assert Split(s) == [w] + Split(s[|w|..]);
      }
    }
  }

  lemma {:induction false} JoinOfClean(ws: seq<string>)
    requires forall k :: 0 <= k < |ws| ==> IsClean(ws[k])
    ensures IsClean(Join(" ", ws))
  {
    if |ws| > 1 {
      JoinOfClean(ws[1..]);
      var j := Join(" ", ws[1..]);
      forall i | 0 <= i < |ws[0] + " " + j| ensures CleanChar((ws[0] + " " + j)[i]) {
        CharAt(ws[0] + " ", j, i);
        CharAt(ws[0], " ", i);
      }
    }
  }

  lemma {:induction false} DropStopwordsNone(ws: seq<string>, stops: set<string>)
    requires forall k :: 0 <= k < |ws| ==> ws[k] !in stops
    ensures DropStopwords(ws, stops) == ws
  {
    if ws != [] {
      DropStopwordsNone(ws[1..], stops);
      assert [ws[0]] + ws[1..] == ws;
    }
  }

  lemma {:induction false} DropStopwordsKeeps(ws: seq<string>, stops: set<string>, P: string -> bool)
    requires forall k :: 0 <= k < |ws| ==> P(ws[k])
    ensures forall k :: 0 <= k < |DropStopwords(ws, stops)| ==> P(DropStopwords(ws, stops)[k])
  {
    if ws != [] {
      DropStopwordsKeeps(ws[1..], stops, P);
    }
  }

  /** The words of the text `clean_text` builds are the non-stopwords among the lower-cased words, in order. */
  lemma CleanTextWords(text: string, english: set<string>)
    ensures text != "" ==>
      Split(CleanText(text, english)) == DropStopwords(Split(Lower(StripSpecials(text))), english)
    ensures forall w :: w in Split(CleanText(text, english)) ==> w !in english && IsClean(w) && |w| > 0
  {
    if text != "" {
      var s := Lower(StripSpecials(text));
      var ws := DropStopwords(Split(s), english);
      LowerOfSurvivors(StripSpecials(text));
      SplitOfClean(s);
      DropStopwordsKeeps(Split(s), english, (w: string) => |w| > 0 && HasNoSpace(w) && IsClean(w));
      SplitJoin(ws);
    }
  }

  /** Cleaning clean text changes nothing. */
  lemma CleanTextIdempotent(text: string, english: set<string>)
    ensures CleanText(CleanText(text, english), english) == CleanText(text, english)
  {
    var c := CleanText(text, english);
    if c != "" {
      var s := Lower(StripSpecials(text));
      var ws := DropStopwords(Split(s), english);
      CleanTextWords(text, english);
      JoinOfClean(ws);
      StripSpecialsKeepsSurvivors(c);
      assert IsLower(c);
      DropStopwordsNone(ws, english);
    }
  }

  // --------------------------------------------------------- extract_topics

  /** `[w for w in words if w not in stops and len(w) > 3]`. */
  function LongWords(ws: seq<string>, stops: set<string>): (r: seq<string>)
    ensures |r| <= |ws|
    ensures forall w :: w in r <==> w in ws && w !in stops && |w| > 3
  {
    if ws == [] then []
    else (if ws[0] !in stops && |ws[0]| > 3 then [ws[0]] else []) + LongWords(ws[1..], stops)
  }

  /** The words `extract_topics` counts: the long non-stopwords of the cleaned text. */
  function KeptWords(text: string, english: set<string>): seq<string> {
    if text == "" then [] else LongWords(Split(CleanText(text, english)), english)
  }

  /** The frequency dict: one entry per distinct word, in first-occurrence order. */
  function Frequencies(words: seq<string>): (c: Counter)
    ensures c.Valid()
  {
    CountAll(Empty(), words)
  }

  /** `sorted(freq.items(), key=lambda x: x[1], reverse=True)`: most frequent first, ties in dict order. */
  function RankedWords(words: seq<string>): seq<(string, int)> {
    SortBy(Frequencies(words).Items(), Topics.ByWeightDesc)
  }

  /** Python's slice `s[:n]`, including a negative `n`, which counts from the end. */
  function PyPrefix<T>(s: seq<T>, n: int): (r: seq<T>)
    ensures |r| <= |s| && r == s[..|r|]
    ensures n >= 0 ==> |r| == Min(n, |s|)
    ensures n < 0 ==> |r| == if |s| + n > 0 then |s| + n else 0
  {
    if n >= 0 then Take(s, n) else if |s| + n > 0 then s[..|s| + n] else []
  }

  function Min(a: int, b: int): int {
    if a <= b then a else b
  }

  /** The first `n` (in Python's slice sense) words of the ranking of `words`. */
  function TopOf(words: seq<string>, n: int): seq<string> {
    Keys(PyPrefix(RankedWords(words), n))
  }

  /** What `extract_topics(text, n)` returns. */
  function TopWords(text: string, n: int, english: set<string>): seq<string> {
    TopOf(KeptWords(text, english), n)
  }

  /** The counting loop of `extract_topics`. */
  method CountWords(words: seq<string>) returns (freq: Counter)
    ensures freq == Frequencies(words)
  {
    freq := Empty();
    for i := 0 to |words|
      invariant freq == CountAll(Empty(), words[..i])
    {
      assert words[..i + 1][..i] == words[..i];
      freq := freq.Add(words[i], 1);
    }
    assert words[..|words|] == words;
  }

  /** `extract_topics`: count the kept words in a loop, rank them, keep the first `n`. */
  method ExtractTopics(text: string, n: int, english: set<string>) returns (topics: seq<string>)
    ensures topics == TopWords(text, n, english)
  {
    if text == "" {
      return [];
    }
    var words := LongWords(Split(CleanText(text, english)), english);
    assert words == KeptWords(text, english);
    var freq := CountWords(words);
    var ranked := SortBy(freq.Items(), Topics.ByWeightDesc);
    topics := Keys(PyPrefix(ranked, n));
  }

  /** The frequency dict lists each distinct word once, with its number of occurrences. */
  lemma FrequenciesCount(words: seq<string>)
    ensures Distinct(Frequencies(words).order)
    ensures forall t :: t in Frequencies(words).order <==> t in words
    ensures forall t :: Frequencies(words).Get(t) == multiset(words)[t]
  {
    CountAllCounts(Empty(), words);
  }

  /** The ranking holds exactly one pair per distinct word, paired with that word's count. */
  lemma RankedWordsCounts(words: seq<string>)
    ensures |RankedWords(words)| == |Frequencies(words).order|
    ensures forall p :: p in RankedWords(words) ==> p.0 in words && p.1 == multiset(words)[p.0]
    ensures forall t :: t in words ==> (t, multiset(words)[t]) in RankedWords(words)
  {
    RankedWordsSound(words);
    RankedWordsComplete(words);
  }

  lemma RankedWordsSound(words: seq<string>)
    ensures forall p :: p in RankedWords(words) ==> p.0 in words && p.1 == multiset(words)[p.0]
  {
    var items := Frequencies(words).Items();
    var ranked := RankedWords(words);
    FrequenciesCount(words);
    forall p | p in ranked ensures p.0 in words && p.1 == multiset(words)[p.0] {
      assert p in multiset(ranked);
      assert p in multiset(items);
      var i :| 0 <= i < |items| && items[i] == p;
    }
  }

  lemma RankedWordsComplete(words: seq<string>)
    ensures forall t :: t in words ==> (t, multiset(words)[t]) in RankedWords(words)
  {
    var c := Frequencies(words);
    var items := c.Items();
    var ranked := RankedWords(words);
    FrequenciesCount(words);
    forall t | t in words ensures (t, multiset(words)[t]) in ranked {
      var i :| 0 <= i < |c.order| && c.order[i] == t;
      assert items[i] == (t, multiset(words)[t]);
      assert items[i] in multiset(items);
      assert items[i] in multiset(ranked);
    }
  }

  /** No (word, count) pair is ranked twice. */
  lemma RankedWordsDistinct(words: seq<string>)
    ensures Distinct(RankedWords(words))
  {
    var c := Frequencies(words);
    var items := c.Items();
    FrequenciesCount(words);
    forall i, j | 0 <= i < j < |items| ensures items[i] != items[j] {
      assert items[i].0 == c.order[i] && items[j].0 == c.order[j];
    }
    PermutationDistinct(items, RankedWords(words));
  }

  /** Every top word is one of the words, none repeats, and there are `n` of them or all the distinct words. */
  lemma TopOfShape(words: seq<string>, n: int)
    ensures forall t :: t in TopOf(words, n) ==> t in words
    ensures Distinct(TopOf(words, n))
    ensures n >= 0 ==> |TopOf(words, n)| == Min(n, |Frequencies(words).order|)
  {
    var r := TopOf(words, n);
    RankedWordsCounts(words);
    RankedWordsDistinct(words);
    forall t | t in r ensures t in words {
      var i :| 0 <= i < |r| && r[i] == t;
      TopEntry(words, n, i);
    }
    forall i, j | 0 <= i < j < |r| ensures r[i] != r[j] {
      TopEntry(words, n, i);
      TopEntry(words, n, j);
    }
  }

  /** The `i`-th top word is the word of the `i`-th ranked pair. */
  lemma TopEntry(words: seq<string>, n: int, i: int)
    requires 0 <= i < |TopOf(words, n)|
    ensures i < |RankedWords(words)| && TopOf(words, n)[i] == RankedWords(words)[i].0
    ensures RankedWords(words)[i] in RankedWords(words)
  {
    var ranked := RankedWords(words);
    var top := PyPrefix(ranked, n);
    assert top[i] == ranked[i];
  }

  /** The top words come most frequent first, and no word left out occurs more often than any word kept. */
  lemma TopOfRanked(words: seq<string>, n: int)
    ensures forall i, j :: 0 <= i < j < |TopOf(words, n)| ==>
      multiset(words)[TopOf(words, n)[i]] >= multiset(words)[TopOf(words, n)[j]]
    ensures forall t, i :: t in words && t !in TopOf(words, n) && 0 <= i < |TopOf(words, n)| ==>
      multiset(words)[TopOf(words, n)[i]] >= multiset(words)[t]
  {
    var m := multiset(words);
    var ranked := RankedWords(words);
    var r := TopOf(words, n);
    RankedWordsSound(words);
    forall i, j | 0 <= i < j < |r| ensures m[r[i]] >= m[r[j]] {
      TopEntry(words, n, i);
      TopEntry(words, n, j);
      assert Topics.ByWeightDesc(ranked[i]) <= Topics.ByWeightDesc(ranked[j]);
    }
    RankedWordsComplete(words);
    forall t, i | t in words && t !in r && 0 <= i < |r| ensures m[r[i]] >= m[t] {
      var k :| 0 <= k < |ranked| && ranked[k] == (t, m[t]);
      KeyListed(PyPrefix(ranked, n), k);
      TopEntry(words, n, i);
      assert Topics.ByWeightDesc(ranked[i]) <= Topics.ByWeightDesc(ranked[k]);
    }
  }

  /**
   * What `extract_topics` promises: each topic is a long non-stopword of the cleaned text,
   * and empty text has no topics.
   */
  lemma TopWordsFrom(text: string, n: int, english: set<string>)
    ensures forall t :: t in TopWords(text, n, english) ==>
      t in Split(CleanText(text, english)) && t !in english && |t| > 3
    ensures text == "" ==> TopWords(text, n, english) == []
  {
    TopOfShape(KeptWords(text, english), n);
  }

  // ------------------------------------------------------ safe_dict_to_json

  /** The Python values `safe_dict_to_json` distinguishes; any other object is kept with its `str()`. */
  datatype PyValue =
    | PyNone
    | PyBool(b: bool)
    | PyInt(i: int)
    | PyFloat(x: real)
    | PyStr(s: string)
    | PyList(items: seq<PyValue>)
    | PyTuple(items: seq<PyValue>)
    | PyDict(entries: seq<(PyValue, PyValue)>)
    | PyOther(str: string)

  predicate IsScalar(v: PyValue) {
    v.PyNone? || v.PyBool? || v.PyInt? || v.PyFloat? || v.PyStr?
  }

  /** Scalars, and lists and dicts whose elements and values are so in turn; keys are not looked at. */
  predicate ValuesSerialisable(v: PyValue) {
    match v
    case PyList(items) => forall i :: 0 <= i < |items| ==> ValuesSerialisable(items[i])
    case PyDict(entries) => forall i :: 0 <= i < |entries| ==> ValuesSerialisable(entries[i].1)
    case PyTuple(_) => false
    case PyOther(_) => false
    case _ => true
  }

  /** Every dict key, at any depth, is a scalar. */
  predicate ScalarKeys(v: PyValue) {
    match v
    case PyList(items) => forall i :: 0 <= i < |items| ==> ScalarKeys(items[i])
    case PyTuple(items) => forall i :: 0 <= i < |items| ==> ScalarKeys(items[i])
    case PyDict(entries) =>
      forall i :: 0 <= i < |entries| ==> IsScalar(entries[i].0) && ScalarKeys(entries[i].1)
    case _ => true
  }

  /** What `json.dumps` accepts: serialisable values under scalar keys. */
  predicate Serialisable(v: PyValue) {
    ValuesSerialisable(v) && ScalarKeys(v)
  }

  /**
   * `safe_dict_to_json`: scalars pass through, lists and tuples become lists of converted
   * elements, dicts keep their keys and convert their values, anything else becomes its
   * `str()`. Keys are not converted, so the result is serialisable exactly when the input's
   * keys already are scalars.
   */
  function SafeDictToJson(v: PyValue): (r: PyValue)
    ensures ValuesSerialisable(r)
    ensures IsScalar(v) ==> r == v
    ensures v.PyList? || v.PyTuple? ==>
      r.PyList? && |r.items| == |v.items|
      && forall i :: 0 <= i < |r.items| ==> r.items[i] == SafeDictToJson(v.items[i])
    ensures v.PyDict? ==>
      r.PyDict? && |r.entries| == |v.entries|
      && forall i :: 0 <= i < |r.entries| ==>
        r.entries[i].0 == v.entries[i].0 && r.entries[i].1 == SafeDictToJson(v.entries[i].1)
    ensures v.PyOther? ==> r == PyStr(v.str)
  {
    match v
    case PyList(items) => PyList(seq(|items|, i requires 0 <= i < |items| => SafeDictToJson(items[i])))
    case PyTuple(items) => PyList(seq(|items|, i requires 0 <= i < |items| => SafeDictToJson(items[i])))
    case PyDict(entries) =>
      PyDict(seq(|entries|, i requires 0 <= i < |entries| => (entries[i].0, SafeDictToJson(entries[i].1))))
    case PyOther(str) => PyStr(str)
    case _ => v
  }

  /**
   * Keys are kept at every depth, so the result has scalar keys exactly when the input has,
   * and it is serialisable exactly then.
   */
  lemma {:induction false} SafeDictToJsonKeys(v: PyValue)
    ensures ScalarKeys(SafeDictToJson(v)) <==> ScalarKeys(v)
    ensures Serialisable(SafeDictToJson(v)) <==> ScalarKeys(v)
  {
    match v
    case PyList(items) =>
      forall i | 0 <= i < |items| ensures ScalarKeys(SafeDictToJson(items[i])) <==> ScalarKeys(items[i]) {
        SafeDictToJsonKeys(items[i]);
      }
    case PyTuple(items) =>
      forall i | 0 <= i < |items| ensures ScalarKeys(SafeDictToJson(items[i])) <==> ScalarKeys(items[i]) {
        SafeDictToJsonKeys(items[i]);
      }
    case PyDict(entries) =>
      forall i | 0 <= i < |entries|
        ensures ScalarKeys(SafeDictToJson(entries[i].1)) <==> ScalarKeys(entries[i].1)
      {
        SafeDictToJsonKeys(entries[i].1);
      }
    case _ =>
  }

  /** A value whose values are already serialisable comes back unchanged, whatever its keys. */
  lemma {:induction false} SafeDictToJsonFixes(v: PyValue)
    requires ValuesSerialisable(v)
    ensures SafeDictToJson(v) == v
  {
    match v
    case PyList(items) =>
      forall i | 0 <= i < |items| ensures SafeDictToJson(items[i]) == items[i] {
        SafeDictToJsonFixes(items[i]);
      }
    case PyDict(entries) =>
      forall i | 0 <= i < |entries| ensures SafeDictToJson(entries[i].1) == entries[i].1 {
        SafeDictToJsonFixes(entries[i].1);
      }
    case _ =>
  }

  /** Converting twice is converting once. */
  lemma SafeDictToJsonIdempotent(v: PyValue)
    ensures SafeDictToJson(SafeDictToJson(v)) == SafeDictToJson(v)
  {
    SafeDictToJsonFixes(SafeDictToJson(v));
  }

  /** A dict keyed by a tuple keeps that key, so the result is still not serialisable. */
  lemma TupleKeyKept()
    ensures var r := SafeDictToJson(PyDict([(PyTuple([]), PyInt(1))]));
      r == PyDict([(PyTuple([]), PyInt(1))]) && !Serialisable(r)
  {
    var v := PyDict([(PyTuple([]), PyInt(1))]);
    assert v.entries[0].0 == PyTuple([]) && !IsScalar(v.entries[0].0);
    SafeDictToJsonKeys(v);
  }
}
