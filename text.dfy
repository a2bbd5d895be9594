/**
 * The string primitives the pipeline leans on, with Python's meaning:
 * `str.lower`/`str.upper` (ASCII letters), `str.isalnum`, `str.isspace`,
 * `sub in s`, `s.count(sub)`, `s.split()`, `sep.join(parts)` and `str(n)`.
 */
module Text {

  // ---------------------------------------------------------------- case

  function LowerChar(c: char): char {
    if 'A' <= c <= 'Z' then (c as int + 32) as char else c
  }

  function UpperChar(c: char): char {
    if 'a' <= c <= 'z' then (c as int - 32) as char else c
  }

  /** No upper-case ASCII letter anywhere in `s`. */
  predicate IsLower(s: string) {
    forall i :: 0 <= i < |s| ==> !('A' <= s[i] <= 'Z')
  }

  /** `s.lower()`: keeps the length, leaves no upper-case letter, and is the identity on lower-case text. */
  function Lower(s: string): (r: string)
    ensures |r| == |s| && IsLower(r)
    ensures IsLower(s) ==> r == s
  {
    seq(|s|, i requires 0 <= i < |s| => LowerChar(s[i]))
  }

  /** `s.upper()`: keeps the length and leaves no lower-case letter. */
  function Upper(s: string): (r: string)
    ensures |r| == |s|
    ensures forall i :: 0 <= i < |r| ==> !('a' <= r[i] <= 'z')
  {
    seq(|s|, i requires 0 <= i < |s| => UpperChar(s[i]))
  }

  // ---------------------------------------------------------- char classes

  predicate IsDigit(c: char) { '0' <= c <= '9' }

  predicate IsAlnumChar(c: char) { 'a' <= c <= 'z' || 'A' <= c <= 'Z' || IsDigit(c) }

  /** `s.isalnum()`: non-empty and made of letters and digits only. */
  predicate IsAlnum(s: string) {
    |s| > 0 && forall i :: 0 <= i < |s| ==> IsAlnumChar(s[i])
  }

  /** `c.isspace()`: the characters Python treats as whitespace. */
  predicate IsSpace(c: char) {
    var n := c as int;
    (9 <= n <= 13) || (28 <= n <= 32) || n == 0x85 || n == 0xA0 || n == 0x1680
    || (0x2000 <= n <= 0x200A) || n == 0x2028 || n == 0x2029 || n == 0x202F
    || n == 0x205F || n == 0x3000
  }

  predicate HasNoSpace(s: string) {
    forall i :: 0 <= i < |s| ==> !IsSpace(s[i])
  }

  lemma {:induction false} AlnumHasNoSpace(s: string)
    requires IsAlnum(s)
    ensures HasNoSpace(s)
  {
  }

  // ------------------------------------------------------------ substrings

  predicate OccursAt(sub: string, s: string, i: int) {
    0 <= i && i + |sub| <= |s| && s[i..i + |sub|] == sub
  }

  /** Python's `sub in s`. */
  predicate IsSubstring(sub: string, s: string) {
    exists i :: 0 <= i <= |s| - |sub| && OccursAt(sub, s, i)
  }

  lemma {:induction false} SubstringOfItself(s: string)
    ensures IsSubstring(s, s)
  {
    assert OccursAt(s, s, 0);
  }

  /** Python's `s.count(sub)` for a non-empty `sub`: non-overlapping occurrences, scanned left to right. */
  function Count(s: string, sub: string): nat
    requires |sub| > 0
    decreases |s|
  {
    if |s| < |sub| then 0
    else if s[..|sub|] == sub then 1 + Count(s[|sub|..], sub)
    else Count(s[1..], sub)
  }

  /** A piece of a concatenation occurs in it. */
  lemma InMiddle(a: string, b: string, c: string)
    ensures IsSubstring(b, a + b + c)
  {
    assert (a + b + c)[|a|..|a| + |b|] == b;
    assert OccursAt(b, a + b + c, |a|);
  }

  /** What occurs in a string occurs in it with anything put before it. */
  lemma SubstringPrepend(sub: string, p: string, s: string)
    requires IsSubstring(sub, s)
    ensures IsSubstring(sub, p + s)
  {
    var i :| 0 <= i <= |s| - |sub| && OccursAt(sub, s, i);
    assert (p + s)[|p| + i..|p| + i + |sub|] == s[i..i + |sub|];
    assert OccursAt(sub, p + s, |p| + i);
  }

  /** What occurs in a string occurs in it with anything put after it. */
  lemma SubstringAppend(sub: string, s: string, q: string)
    requires IsSubstring(sub, s)
    ensures IsSubstring(sub, s + q)
  {
    var i :| 0 <= i <= |s| - |sub| && OccursAt(sub, s, i);
    assert (s + q)[i..i + |sub|] == s[i..i + |sub|];
    assert OccursAt(sub, s + q, i);
  }

  /** An occurrence after the first character is an occurrence in the rest, one place earlier. */
  lemma OccursShift(s: string, sub: string, i: int)
    requires |s| > 0 && i >= 1
    ensures OccursAt(sub, s, i) <==> OccursAt(sub, s[1..], i - 1)
  {
    if i + |sub| <= |s| {
      assert s[1..][i - 1..i - 1 + |sub|] == s[i..i + |sub|];
    }
  }

  /** `s.count(sub)` is positive exactly when `sub in s`. */
  lemma {:induction false} CountPositiveIffSubstring(s: string, sub: string)
    requires |sub| > 0
    ensures Count(s, sub) > 0 <==> IsSubstring(sub, s)
    decreases |s|
  {
    if |s| < |sub| {
    } else if s[..|sub|] == sub {
      assert OccursAt(sub, s, 0);
    } else {
      CountPositiveIffSubstring(s[1..], sub);
      if IsSubstring(sub, s) {
        var i :| 0 <= i <= |s| - |sub| && OccursAt(sub, s, i);
        assert i != 0;
        OccursShift(s, sub, i);
      }
      if IsSubstring(sub, s[1..]) {
        var i :| 0 <= i <= |s[1..]| - |sub| && OccursAt(sub, s[1..], i);
        OccursShift(s, sub, i + 1);
      }
    }
  }

  // ------------------------------------------------------- split and join

  /** The longest prefix of `s` holding no whitespace. */
  function Word(s: string): (w: string)
    ensures |w| <= |s| && w == s[..|w|] && HasNoSpace(w)
    ensures |w| < |s| ==> IsSpace(s[|w|])
    ensures s != [] && !IsSpace(s[0]) ==> |w| > 0
  {
    if s == [] || IsSpace(s[0]) then [] else [s[0]] + Word(s[1..])
  }

  /** `s.split()`: the maximal runs of non-whitespace, in order; never an empty piece. */
  function Split(s: string): (r: seq<string>)
    ensures forall k :: 0 <= k < |r| ==> |r[k]| > 0 && HasNoSpace(r[k])
    decreases |s|
  {
    if s == [] then []
    else if IsSpace(s[0]) then Split(s[1..])
    else
      var w := Word(s);
      [w] + Split(s[|w|..])
  }

  /** `sep.join(parts)`. */
  function Join(sep: string, parts: seq<string>): string {
    if parts == [] then ""
    else if |parts| == 1 then parts[0]
    else parts[0] + sep + Join(sep, parts[1..])
  }

  lemma {:induction false} WordOfPrefix(t: string, rest: string)
    requires HasNoSpace(t)
    requires rest == [] || IsSpace(rest[0])
    ensures Word(t + rest) == t
  {
    if t != [] {
      assert (t + rest)[1..] == t[1..] + rest;
      WordOfPrefix(t[1..], rest);
    }
  }

  /** Joining non-empty, whitespace-free words with a space and splitting again gives the words back. */
  lemma {:induction false} SplitJoin(ts: seq<string>)
    requires forall k :: 0 <= k < |ts| ==> |ts[k]| > 0 && HasNoSpace(ts[k])
    ensures Split(Join(" ", ts)) == ts
  {
    if |ts| == 1 {
      WordOfPrefix(ts[0], []);
      assert ts[0] + [] == ts[0];
      assert ts[0][|ts[0]|..] == [];
    } else if |ts| > 1 {
      var t, j := ts[0], Join(" ", ts[1..]);
      var s := t + " " + j;
      assert s == t + (" " + j);
      WordOfPrefix(t, " " + j);
      assert s[|t|..] == " " + j;
      assert (" " + j)[1..] == j;
      SplitJoin(ts[1..]);
      assert [t] + ts[1..] == ts;
    }
  }

  // -------------------------------------------------------------- numbers

  function DigitChar(d: nat): char
    requires d < 10
  {
    ('0' as int + d) as char
  }

  /** `str(n)` for a natural number: a non-empty run of decimal digits. */
  function NatToString(n: nat): (s: string)
    ensures |s| > 0 && forall i :: 0 <= i < |s| ==> IsDigit(s[i])
    ensures n < 10 <==> |s| == 1
  {
    if n < 10 then [DigitChar(n)] else NatToString(n / 10) + [DigitChar(n % 10)]
  }

  /** Different numbers are written differently. */
  lemma {:induction false} NatToStringInjective(a: nat, b: nat)
    requires NatToString(a) == NatToString(b)
    ensures a == b
    decreases a
  {
    var sa, sb := NatToString(a), NatToString(b);
    if a >= 10 {
      assert sa[..|sa| - 1] == NatToString(a / 10) && sa[|sa| - 1] == DigitChar(a % 10);
      assert sb[..|sb| - 1] == NatToString(b / 10) && sb[|sb| - 1] == DigitChar(b % 10);
      NatToStringInjective(a / 10, b / 10);
    }
  }

  /** The character at position `i` of a concatenation. */
  lemma CharAt(a: string, b: string, i: int)
    ensures 0 <= i < |a| ==> (a + b)[i] == a[i]
    ensures |a| <= i < |a| + |b| ==> (a + b)[i] == b[i - |a|]
  {
  }

  /**
   * A run of digits followed by text that does not start with a digit is recovered from the
   * whole: the run ends where the digits stop.
   */
  lemma {:induction false} DigitRunPrefix(s1: string, x: string, s2: string, y: string)
    requires forall i :: 0 <= i < |s1| ==> IsDigit(s1[i])
    requires forall i :: 0 <= i < |s2| ==> IsDigit(s2[i])
    requires x != [] && !IsDigit(x[0]) && y != [] && !IsDigit(y[0])
    requires s1 + x == s2 + y
    ensures s1 == s2
  {
    if |s1| < |s2| {
      CharAt(s1, x, |s1|);
      CharAt(s2, y, |s1|);
      assert false;
    } else if |s2| < |s1| {
      CharAt(s1, x, |s2|);
      CharAt(s2, y, |s2|);
      assert false;
    }
    assert s1 == (s1 + x)[..|s1|];
    assert s2 == (s2 + y)[..|s2|];
  }

  /** Two texts that differ only in a run of digits after a common prefix have the same run. */
  lemma {:induction false} SameDigitsAfter(o: string, na: string, nb: string, rest: string)
    requires forall i :: 0 <= i < |na| ==> IsDigit(na[i])
    requires forall i :: 0 <= i < |nb| ==> IsDigit(nb[i])
    requires rest != [] && !IsDigit(rest[0])
    requires o + na + rest == o + nb + rest
    ensures na == nb
  {
    assert (o + na + rest)[|o|..] == na + rest;
    assert (o + nb + rest)[|o|..] == nb + rest;
    DigitRunPrefix(na, rest, nb, rest);
  }

  /** `str(n)` for an integer. */
  function IntToString(n: int): (s: string)
    ensures n >= 0 ==> s == NatToString(n)
    ensures n < 0 ==> s == "-" + NatToString(-n)
  {
    if n < 0 then "-" + NatToString(-n) else NatToString(n)
  }
}
