/**
 * The pronunciation scorer shared, line for line, by the Listen & Repeat and
 * the Conversation practice screens: a bag-of-words recall of the expected
 * phrase's words in what the recognizer heard, and the feedback tier of a score.
 */
module Scorer {
  import opened Text

  // ---------------------------------------------------------------------------
  // Normalization

  predicate IsLowerAlphanumeric(w: string) {
    forall j :: 0 <= j < |w| ==> IsAlphanumeric(w[j]) && !IsUpper(w[j])
  }

  predicate HasAlphanumeric(s: string) {
    exists j :: 0 <= j < |s| && IsAlphanumeric(s[j])
  }

  /** `normalize`: the lower-cased, non-empty alphanumeric runs of `s`, in order. */
  function Normalize(s: string): seq<string> {
    Tokens(Lower(s), NonAlphanumeric)
  }

  /** Every word is non-empty, alphanumeric and lower-case. */
  lemma NormalizeWords(s: string)
    ensures forall i :: 0 <= i < |Normalize(s)| ==> Normalize(s)[i] != [] && IsLowerAlphanumeric(Normalize(s)[i])
  {
    var low := Lower(s);
    var r := Tokens(low, NonAlphanumeric);
    LowerShape(s);
    TokensShape(low, NonAlphanumeric);
    forall i, j | 0 <= i < |r| && 0 <= j < |r[i]| ensures !IsUpper(r[i][j]) {
      var k :| 0 <= k < |low| && low[k] == r[i][j];
    }
  }

  /** Run together, the words are exactly the alphanumeric characters of `s`, lower-cased, in order. */
  lemma NormalizeKeepsAlphanumerics(s: string)
    ensures Concat(Normalize(s)) == Kept(Lower(s), NonAlphanumeric)
  {
    TokensKeepEverythingElse(Lower(s), NonAlphanumeric);
  }

  lemma {:induction false} KeptEmptyIff(s: string)
    ensures Kept(s, NonAlphanumeric) == [] <==> !HasAlphanumeric(s)
  {
    if s != [] {
      KeptEmptyIff(s[1..]);
      if !HasAlphanumeric(s) {
        assert !HasAlphanumeric(s[1..]) by {
          forall j | 0 <= j < |s[1..]| ensures !IsAlphanumeric(s[1..][j]) {
            assert s[1..][j] == s[j + 1];
          }
        }
      } else if IsSeparator(s[0], NonAlphanumeric) {
        var j :| 0 <= j < |s| && IsAlphanumeric(s[j]);
        assert IsAlphanumeric(s[1..][j - 1]);
      }
    }
  }

  lemma ConcatEmptyIff(ps: seq<string>)
    requires forall i :: 0 <= i < |ps| ==> ps[i] != []
    ensures Concat(ps) == [] <==> ps == []
  {
  }

  /** A text has no words exactly when it has no alphanumeric character. */
  lemma NormalizeEmptyIff(s: string)
    ensures Normalize(s) == [] <==> !HasAlphanumeric(s)
  {
    NormalizeKeepsAlphanumerics(s);
    NormalizeWords(s);
    KeptEmptyIff(Lower(s));
    ConcatEmptyIff(Normalize(s));
    LowerShape(s);
    var low := Lower(s);
    if HasAlphanumeric(s) {
      var j :| 0 <= j < |s| && IsAlphanumeric(s[j]);
      assert IsAlphanumeric(low[j]);
    }
    if HasAlphanumeric(low) {
      var j :| 0 <= j < |low| && IsAlphanumeric(low[j]);
      assert IsAlphanumeric(s[j]);
    }
  }

  // ---------------------------------------------------------------------------
  // Score

  /** How many expected words (with repetitions) occur anywhere among the actual words. */
  function CountMatches(expected: seq<string>, actual: seq<string>): (m: nat)
    ensures m <= |expected|
  {
    if expected == [] then 0
    else
      CountMatches(expected[..|expected| - 1], actual)
      + (if expected[|expected| - 1] in actual then 1 else 0)
  }

  /** `Int((Double(m) / Double(n) * 100).rounded())`, rounding half away from zero. */
  function Percent(m: nat, n: nat): nat
    requires 0 < n
  {
    (200 * m + n) / (2 * n)
  }

  lemma MulMono(x: int, y: int, b: int)
    requires x <= y && 0 < b
    ensures x * b <= y * b
  {
  }

  lemma DivIs(a: int, b: int, q: int)
    requires 0 < b && 0 <= q && q * b <= a < (q + 1) * b
    ensures a / b == q
  {
    var d := a / b;
    if d < q {
      MulMono(d + 1, q, b);
    } else if d > q {
      MulMono(q + 1, d, b);
    }
  }

  lemma PercentAtMost100(m: nat, n: nat)
    requires 0 < n && m <= n
    ensures Percent(m, n) <= 100
  {
    var q := Percent(m, n);
    if q > 100 {
      MulMono(101, q, 2 * n);
    }
  }

  /** Below 200 expected words, only full recall rounds to 100. */
  lemma PercentFullIff(m: nat, n: nat)
    requires 0 < n < 200 && m <= n
    ensures Percent(m, n) == 100 <==> m == n
  {
    if m == n {
      DivIs(200 * n + n, 2 * n, 100);
    } else {
      var q := Percent(m, n);
      if q >= 100 {
        MulMono(100, q, 2 * n);
      }
    }
  }

  /** Up to 200 expected words, only zero recall rounds to 0. */
  lemma PercentZeroIff(m: nat, n: nat)
    requires 0 < n <= 200 && m <= n
    ensures Percent(m, n) == 0 <==> m == 0
  {
    if m == 0 {
      DivIs(n, 2 * n, 0);
    } else {
      var q := Percent(m, n);
      if q == 0 {
        DivIs(200 * m + n, 2 * n, q);
      }
    }
  }

  /** `similarityScore`: 0 when either side has no words, otherwise the rounded recall percentage. */
  function Score(expected: string, actual: string): (r: nat)
    ensures r <= 100
  {
    var e := Normalize(expected);
    var a := Normalize(actual);
    if e == [] || a == [] then 0
    else
      PercentAtMost100(CountMatches(e, a), |e|);
      Percent(CountMatches(e, a), |e|)
  }

  /**
   * `similarityScore` as the source computes it: a counting loop over the
   * expected words; the result is the recall percentage `Score`.
   */
  method SimilarityScore(expected: string, actual: string) returns (score: int)
    ensures score == Score(expected, actual)
    ensures 0 <= score <= 100
  {
    var expWords := Normalize(expected);
    var actWords := Normalize(actual);
    if expWords == [] { return 0; }
    if actWords == [] { return 0; }
    var matches := 0;
    for i := 0 to |expWords|
      invariant matches == CountMatches(expWords[..i], actWords)
    {
      assert expWords[..i + 1][..i] == expWords[..i];
      if expWords[i] in actWords {
        matches := matches + 1;
      }
    }
    assert expWords[..|expWords|] == expWords;
    score := Percent(matches, |expWords|);
  }

  // ---------------------------------------------------------------------------
  // Properties of the score

  /** A text without words scores 0, as expected phrase or as attempt. */
  lemma ScoreOfWordless(expected: string, actual: string)
    requires !HasAlphanumeric(expected) || !HasAlphanumeric(actual)
    ensures Score(expected, actual) == 0
  {
    NormalizeEmptyIff(expected);
    NormalizeEmptyIff(actual);
  }

  lemma {:induction false} CountMatchesSameWords(e: seq<string>, a1: seq<string>, a2: seq<string>)
    requires forall w :: w in a1 <==> w in a2
    ensures CountMatches(e, a1) == CountMatches(e, a2)
  {
    if e != [] {
      CountMatchesSameWords(e[..|e| - 1], a1, a2);
    }
  }

  /**
   * Only the set of words heard matters: reordering, repeating or dropping
   * duplicate words of the attempt never changes the score.
   */
  lemma ScoreDependsOnlyOnWordsHeard(expected: string, actual1: string, actual2: string)
    requires forall w :: w in Normalize(actual1) <==> w in Normalize(actual2)
    ensures Score(expected, actual1) == Score(expected, actual2)
  {
    var a1, a2 := Normalize(actual1), Normalize(actual2);
    if a1 != [] { assert a1[0] in a2; }
    if a2 != [] { assert a2[0] in a1; }
    CountMatchesSameWords(Normalize(expected), a1, a2);
  }

  lemma {:induction false} CountMatchesAll(e: seq<string>, a: seq<string>)
    requires forall i :: 0 <= i < |e| ==> e[i] in a
    ensures CountMatches(e, a) == |e|
  {
    if e != [] {
      CountMatchesAll(e[..|e| - 1], a);
    }
  }

  lemma {:induction false} CountMatchesNone(e: seq<string>, a: seq<string>)
    requires forall i :: 0 <= i < |e| ==> e[i] !in a
    ensures CountMatches(e, a) == 0
  {
    if e != [] {
      CountMatchesNone(e[..|e| - 1], a);
    }
  }

  lemma {:induction false} CountMatchesMissed(e: seq<string>, a: seq<string>, k: nat)
    requires k < |e| && e[k] !in a
    ensures CountMatches(e, a) < |e|
  {
    if k < |e| - 1 {
      CountMatchesMissed(e[..|e| - 1], a, k);
    } else {
      assert CountMatches(e[..|e| - 1], a) <= |e| - 1;
    }
  }

  lemma {:induction false} CountMatchesHit(e: seq<string>, a: seq<string>, k: nat)
    requires k < |e| && e[k] in a
    ensures CountMatches(e, a) > 0
  {
    if k < |e| - 1 {
      CountMatchesHit(e[..|e| - 1], a, k);
    }
  }

  /**
   * For an expected phrase of fewer than 200 words, a score of 100 means every
   * expected word was heard (at 200 words or more, rounding reaches 100 with
   * one word missing).
   */
  lemma ScoreFullIff(expected: string, actual: string)
    requires HasAlphanumeric(actual) && |Normalize(expected)| < 200
    ensures Score(expected, actual) == 100
        <==> Normalize(expected) != [] && forall w :: w in Normalize(expected) ==> w in Normalize(actual)
  {
    var e, a := Normalize(expected), Normalize(actual);
    NormalizeEmptyIff(actual);
    if e != [] {
      PercentFullIff(CountMatches(e, a), |e|);
      if forall w :: w in e ==> w in a {
        CountMatchesAll(e, a);
      } else {
        var w :| w in e && w !in a;
        var k :| 0 <= k < |e| && e[k] == w;
        CountMatchesMissed(e, a, k);
      }
    }
  }

  /**
   * For an expected phrase of at most 200 words, a score of 0 means no expected
   * word was heard at all (or nothing was heard, or nothing was expected).
   */
  lemma ScoreZeroIff(expected: string, actual: string)
    requires |Normalize(expected)| <= 200
    ensures Score(expected, actual) == 0
        <==> Normalize(actual) == [] || forall w :: w in Normalize(expected) ==> w !in Normalize(actual)
  {
    var e, a := Normalize(expected), Normalize(actual);
    if e != [] && a != [] {
      PercentZeroIff(CountMatches(e, a), |e|);
      if forall w :: w in e ==> w !in a {
        CountMatchesNone(e, a);
      } else {
        var w :| w in e && w in a;
        var k :| 0 <= k < |e| && e[k] == w;
        CountMatchesHit(e, a, k);
      }
    }
  }

  /** Saying exactly the expected phrase scores 100. */
  lemma ScoreOfSamePhrase(phrase: string)
    requires HasAlphanumeric(phrase)
    ensures Score(phrase, phrase) == 100
  {
    NormalizeEmptyIff(phrase);
    var e := Normalize(phrase);
    CountMatchesAll(e, e);
    DivIs(200 * |e| + |e|, 2 * |e|, 100);
  }

  // ---------------------------------------------------------------------------
  // Feedback tiers

  /** The five feedback bands of the `switch` in `feedback(for:expected:)`. */
  datatype Tier = Excellent | Good | Fair | Poor | NoMatch

  /** The band a score falls in; every score outside 1...100 is `NoMatch`. */
  function TierOf(score: int): (t: Tier)
    ensures t == Excellent <==> 90 <= score <= 100
    ensures t == Good <==> 75 <= score < 90
    ensures t == Fair <==> 50 <= score < 75
    ensures t == Poor <==> 1 <= score < 50
    ensures t == NoMatch <==> score < 1 || score > 100
  {
    if 90 <= score <= 100 then Excellent
    else if 75 <= score < 90 then Good
    else if 50 <= score < 75 then Fair
    else if 1 <= score < 50 then Poor
    else NoMatch
  }

  function Rank(t: Tier): nat {
    match t
    case NoMatch => 0
    case Poor => 1
    case Fair => 2
    case Good => 3
    case Excellent => 4
  }

  /** On the scores the scorer produces, a higher score never lands in a lower band. */
  lemma TierMonotone(s1: int, s2: int)
    requires 0 <= s1 <= s2 <= 100
    ensures Rank(TierOf(s1)) <= Rank(TierOf(s2))
  {
  }
}
