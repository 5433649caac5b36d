/**
 * The string primitives the practice screens rely on: Foundation's
 * `lowercased()`, `trimmingCharacters(in:)`, `components(separatedBy:)`,
 * `range(of:)` and `contains(_:)`, over a Latin-1 approximation of the
 * Unicode character classes (see README, "Left out").
 */
module Text {
  import opened Wrappers

  // ---------------------------------------------------------------------------
  // Character classes

  /** `CharacterSet.whitespacesAndNewlines`. */
  predicate IsWhitespace(c: char) {
    c == ' ' || c == '\t' || c == '\n' || c == '\r' || c == '\U{0B}' || c == '\U{0C}'
    || c == '\U{85}' || c == '\U{A0}'
  }

  /**
   * `CharacterSet.alphanumerics` on Latin-1: ASCII letters and digits, the
   * Latin-1 letters, the ordinal indicators ª º, the micro sign µ, the
   * superscript digits ² ³ ¹ and the vulgar fractions ¼ ½ ¾.
   */
  predicate IsAlphanumeric(c: char) {
    ('a' <= c <= 'z') || ('A' <= c <= 'Z') || ('0' <= c <= '9')
    || ('\U{C0}' <= c <= '\U{FF}' && c != '\U{D7}' && c != '\U{F7}')
    || c == '\U{AA}' || c == '\U{B2}' || c == '\U{B3}' || c == '\U{B5}' || c == '\U{B9}'
    || c == '\U{BA}' || c == '\U{BC}' || c == '\U{BD}' || c == '\U{BE}'
  }

  predicate IsUpper(c: char) {
    ('A' <= c <= 'Z') || ('\U{C0}' <= c <= '\U{DE}' && c != '\U{D7}')
  }

  /** The sentence-terminal marks a playback phrase is split on. */
  predicate IsTerminalPunctuation(c: char) {
    c in ".!?。！？"
  }

  /** The quote marks stripped from a requested phrase. */
  predicate IsQuote(c: char) {
    c in "\"“”'"
  }

  /** Lower-casing of one character; it keeps the character class. */
  function LowerChar(c: char): (r: char)
    ensures IsAlphanumeric(r) <==> IsAlphanumeric(c)
    ensures IsWhitespace(r) <==> IsWhitespace(c)
    ensures !IsUpper(r)
    ensures !IsUpper(c) ==> r == c
  {
    if IsUpper(c) then (c as int + 32) as char else c
  }

  /** `lowercased()`, character by character. */
  function Lower(s: string): string {
    if s == [] then [] else [LowerChar(s[0])] + Lower(s[1..])
  }

  /** Lower-casing preserves length and maps each character on its own. */
  lemma {:induction false} LowerShape(s: string)
    ensures |Lower(s)| == |s|
    ensures forall i :: 0 <= i < |s| ==> Lower(s)[i] == LowerChar(s[i])
  {
    if s != [] {
      LowerShape(s[1..]);
    }
  }

  // ---------------------------------------------------------------------------
  // Trimming

  /** The character sets the source trims with. */
  datatype TrimSet = WhitespaceAndNewlines | QuoteMarks

  predicate InTrimSet(c: char, k: TrimSet) {
    match k
    case WhitespaceAndNewlines => IsWhitespace(c)
    case QuoteMarks => IsQuote(c)
  }

  function TrimStart(s: string, k: TrimSet): (r: string)
    ensures |r| <= |s|
  {
    if s != [] && InTrimSet(s[0], k) then TrimStart(s[1..], k) else s
  }

  function TrimEnd(s: string, k: TrimSet): (r: string)
    ensures |r| <= |s|
  {
    if s != [] && InTrimSet(s[|s| - 1], k) then TrimEnd(s[..|s| - 1], k) else s
  }

  /** Trimming the front drops a run of set characters and stops at the first other one. */
  lemma {:induction false} TrimStartShape(s: string, k: TrimSet)
    ensures |TrimStart(s, k)| <= |s| && TrimStart(s, k) == s[|s| - |TrimStart(s, k)|..]
    ensures TrimStart(s, k) == [] || !InTrimSet(TrimStart(s, k)[0], k)
    ensures forall i :: 0 <= i < |s| - |TrimStart(s, k)| ==> InTrimSet(s[i], k)
  {
    if s != [] && InTrimSet(s[0], k) {
      TrimStartShape(s[1..], k);
    }
  }

  /** Trimming the back drops a run of set characters and stops at the last other one. */
  lemma {:induction false} TrimEndShape(s: string, k: TrimSet)
    ensures |TrimEnd(s, k)| <= |s| && TrimEnd(s, k) == s[..|TrimEnd(s, k)|]
    ensures TrimEnd(s, k) == [] || !InTrimSet(TrimEnd(s, k)[|TrimEnd(s, k)| - 1], k)
    ensures forall i :: |TrimEnd(s, k)| <= i < |s| ==> InTrimSet(s[i], k)
  {
    if s != [] && InTrimSet(s[|s| - 1], k) {
      TrimEndShape(s[..|s| - 1], k);
    }
  }

  predicate IsTrimmedBy(s: string, k: TrimSet) {
    s == [] || (!InTrimSet(s[0], k) && !InTrimSet(s[|s| - 1], k))
  }

  predicate AllIn(s: string, k: TrimSet) {
    forall i :: 0 <= i < |s| ==> InTrimSet(s[i], k)
  }

  /** The number of characters `trimmingCharacters(in:)` drops at the front. */
  function LeadingCount(s: string, k: TrimSet): nat {
    |s| - |TrimStart(s, k)|
  }

  /** `trimmingCharacters(in:)`: the longest infix that neither starts nor ends in the set. */
  function TrimBy(s: string, k: TrimSet): string {
    TrimEnd(TrimStart(s, k), k)
  }

  /**
   * `trimmingCharacters(in:)` yields the longest infix that neither starts nor
   * ends in the set: everything before and after it is in the set, and it is
   * empty exactly when the whole string is.
   */
  lemma TrimByShape(s: string, k: TrimSet)
    ensures IsTrimmedBy(TrimBy(s, k), k)
    ensures LeadingCount(s, k) + |TrimBy(s, k)| <= |s|
    ensures TrimBy(s, k) == s[LeadingCount(s, k)..LeadingCount(s, k) + |TrimBy(s, k)|]
    ensures forall i :: 0 <= i < LeadingCount(s, k) ==> InTrimSet(s[i], k)
    ensures forall i :: LeadingCount(s, k) + |TrimBy(s, k)| <= i < |s| ==> InTrimSet(s[i], k)
    ensures TrimBy(s, k) == [] <==> AllIn(s, k)
  {
    var t := TrimStart(s, k);
    var r := TrimEnd(t, k);
    var a := |s| - |t|;
    assert a + |r| <= |s| && r == s[a..a + |r|] && (forall i :: 0 <= i < a ==> InTrimSet(s[i], k))
        && forall i :: a + |r| <= i < |s| ==> InTrimSet(s[i], k) by {
      TrimStartShape(s, k);
      TrimEndShape(t, k);
      SuffixOfSuffix(s, t, r, k);
    }
    assert IsTrimmedBy(r, k) by {
      TrimStartShape(s, k);
      TrimEndShape(t, k);
    }
    assert r == [] <==> AllIn(s, k) by {
      TrimStartShape(s, k);
      TrimEndShape(t, k);
      if r == [] {
        assert t == [];
      }
    }
  }

  /** What a trimmed-off tail of a suffix leaves behind in the whole string. */
  lemma SuffixOfSuffix(s: string, t: string, r: string, k: TrimSet)
    requires |t| <= |s| && t == s[|s| - |t|..]
    requires |r| <= |t| && r == t[..|r|] && forall i :: |r| <= i < |t| ==> InTrimSet(t[i], k)
    ensures r == s[|s| - |t|..|s| - |t| + |r|]
    ensures forall i :: |s| - |t| + |r| <= i < |s| ==> InTrimSet(s[i], k)
  {
    var a := |s| - |t|;
    forall i | a + |r| <= i < |s| ensures InTrimSet(s[i], k) {
      assert s[i] == t[i - a];
    }
  }

  /** Trimming whitespace and newlines, as every input field of the app does. */
  function Trim(s: string): string {
    TrimBy(s, WhitespaceAndNewlines)
  }

  /** The trimmed text is trimmed, empty exactly for a blank text, and made of the text's characters. */
  lemma TrimShape(s: string)
    ensures IsTrimmedBy(Trim(s), WhitespaceAndNewlines)
    ensures Trim(s) == [] <==> IsBlank(s)
    ensures forall c :: c in Trim(s) ==> c in s
  {
    TrimByShape(s, WhitespaceAndNewlines);
  }

  /** True when a string is empty after trimming. */
  predicate IsBlank(s: string) {
    AllIn(s, WhitespaceAndNewlines)
  }

  /** Trimming a string that is already trimmed changes nothing; in particular trimming is idempotent. */
  lemma {:induction false} TrimmedIsFixed(s: string, k: TrimSet)
    requires IsTrimmedBy(s, k)
    ensures TrimBy(s, k) == s
  {
    assert TrimStart(s, k) == s;
    assert TrimEnd(s, k) == s;
  }

  // ---------------------------------------------------------------------------
  // Splitting

  /** The separator sets passed to `components(separatedBy:)`. */
  datatype Separator = NonAlphanumeric | Whitespace | TerminalPunctuation

  predicate IsSeparator(c: char, sep: Separator) {
    match sep
    case NonAlphanumeric => !IsAlphanumeric(c)
    case Whitespace => IsWhitespace(c)
    case TerminalPunctuation => IsTerminalPunctuation(c)
  }

  predicate HasNoSeparator(s: string, sep: Separator) {
    forall j :: 0 <= j < |s| ==> !IsSeparator(s[j], sep)
  }

  /** The number of separator characters in `s`. */
  function SeparatorCount(s: string, sep: Separator): nat {
    if s == [] then 0 else (if IsSeparator(s[0], sep) then 1 else 0) + SeparatorCount(s[1..], sep)
  }

  /** The characters of `s` that are not separators, in order. */
  function Kept(s: string, sep: Separator): string {
    if s == [] then [] else (if IsSeparator(s[0], sep) then [] else [s[0]]) + Kept(s[1..], sep)
  }

  /**
   * `components(separatedBy:)`: the pieces between separators, empty pieces
   * included, one more piece than there are separators.
   */
  function Components(s: string, sep: Separator): (r: seq<string>)
    ensures |r| > 0
  {
    if s == [] then [""]
    else
      var rest := Components(s[1..], sep);
      if IsSeparator(s[0], sep) then [""] + rest
      else [[s[0]] + rest[0]] + rest[1..]
  }

  /**
   * There is one more piece than there are separators; no piece holds a
   * separator, and every character of a piece comes from `s`.
   */
  lemma {:induction false} ComponentsShape(s: string, sep: Separator)
    ensures |Components(s, sep)| == SeparatorCount(s, sep) + 1
    ensures forall i :: 0 <= i < |Components(s, sep)| ==> HasNoSeparator(Components(s, sep)[i], sep)
    ensures forall i, j :: 0 <= i < |Components(s, sep)| && 0 <= j < |Components(s, sep)[i]| ==>
      Components(s, sep)[i][j] in s
  {
    if s != [] {
      ComponentsShape(s[1..], sep);
      var rest := Components(s[1..], sep);
      var r := Components(s, sep);
      if !IsSeparator(s[0], sep) {
        forall i, j | 0 <= i < |r| && 0 <= j < |r[i]|
          ensures !IsSeparator(r[i][j], sep) && r[i][j] in s
        {
          if i == 0 && j > 0 {
            assert r[i][j] == rest[0][j - 1];
          } else if i > 0 {
            assert r[i] == rest[i];
          }
        }
      } else {
        forall i | 0 < i < |r| ensures r[i] == rest[i - 1] {
        }
      }
    }
  }

  /** The concatenation of a list of strings. */
  function Concat(ps: seq<string>): string {
    if ps == [] then [] else ps[0] + Concat(ps[1..])
  }

  /** `filter { !$0.isEmpty }`. */
  function NonEmpty(ps: seq<string>): seq<string> {
    if ps == [] then []
    else if ps[0] == [] then NonEmpty(ps[1..])
    else [ps[0]] + NonEmpty(ps[1..])
  }

  /** Filtering keeps exactly the non-empty pieces. */
  lemma {:induction false} NonEmptyShape(ps: seq<string>)
    ensures |NonEmpty(ps)| <= |ps|
    ensures forall i :: 0 <= i < |NonEmpty(ps)| ==> NonEmpty(ps)[i] != [] && NonEmpty(ps)[i] in ps
    ensures forall p :: p in ps && p != [] ==> p in NonEmpty(ps)
  {
    if ps != [] {
      NonEmptyShape(ps[1..]);
      forall p | p in ps && p != [] ensures p in NonEmpty(ps) {
        if p != ps[0] {
          assert p in ps[1..];
        }
      }
    }
  }

  /** The non-empty pieces of `s` between separators. */
  function Tokens(s: string, sep: Separator): seq<string> {
    NonEmpty(Components(s, sep))
  }

  /** Every token is non-empty, free of separators and made of characters of `s`. */
  lemma TokensShape(s: string, sep: Separator)
    ensures forall i :: 0 <= i < |Tokens(s, sep)| ==>
      Tokens(s, sep)[i] != [] && HasNoSeparator(Tokens(s, sep)[i], sep)
    ensures forall i, j :: 0 <= i < |Tokens(s, sep)| && 0 <= j < |Tokens(s, sep)[i]| ==>
      Tokens(s, sep)[i][j] in s
  {
    var cs := Components(s, sep);
    ComponentsShape(s, sep);
    NonEmptyShape(cs);
    var r := NonEmpty(cs);
    forall i | 0 <= i < |r| ensures HasNoSeparator(r[i], sep) && forall j :: 0 <= j < |r[i]| ==> r[i][j] in s {
      var k :| 0 <= k < |cs| && cs[k] == r[i];
    }
  }

  lemma {:induction false} ConcatNonEmpty(ps: seq<string>)
    ensures Concat(NonEmpty(ps)) == Concat(ps)
  {
    if ps != [] {
      ConcatNonEmpty(ps[1..]);
      if ps[0] != [] {
        var r := [ps[0]] + NonEmpty(ps[1..]);
        assert r[1..] == NonEmpty(ps[1..]);
      }
    }
  }

  lemma {:induction false} ConcatComponents(s: string, sep: Separator)
    ensures Concat(Components(s, sep)) == Kept(s, sep)
  {
    if s != [] {
      ConcatComponents(s[1..], sep);
      var rest := Components(s[1..], sep);
      if IsSeparator(s[0], sep) {
        assert ([""] + rest)[1..] == rest;
      } else {
        var r := [[s[0]] + rest[0]] + rest[1..];
        assert r[1..] == rest[1..];
        assert Concat(rest) == rest[0] + Concat(rest[1..]);
      }
    }
  }

  /** Splitting loses exactly the separators: the tokens, run together, are the kept characters. */
  lemma TokensKeepEverythingElse(s: string, sep: Separator)
    ensures Concat(Tokens(s, sep)) == Kept(s, sep)
  {
    ConcatNonEmpty(Components(s, sep));
    ConcatComponents(s, sep);
  }

  // ---------------------------------------------------------------------------
  // Searching

  predicate OccursAt(s: string, pat: string, i: int) {
    0 <= i && i + |pat| <= |s| && s[i..i + |pat|] == pat
  }

  function IndexFrom(s: string, pat: string, k: nat): Option<nat>
    requires k <= |s|
    decreases |s| - k
  {
    if k + |pat| > |s| then None
    else if s[k..k + |pat|] == pat then Some(k)
    else IndexFrom(s, pat, k + 1)
  }

  /** The search from `k` finds a match at or after `k`, and none between `k` and it. */
  lemma {:induction false} IndexFromShape(s: string, pat: string, k: nat)
    requires k <= |s|
    ensures IndexFrom(s, pat, k).Some? ==> k <= IndexFrom(s, pat, k).value && OccursAt(s, pat, IndexFrom(s, pat, k).value)
    ensures forall j :: k <= j && (IndexFrom(s, pat, k).None? || j < IndexFrom(s, pat, k).value) ==> !OccursAt(s, pat, j)
    decreases |s| - k
  {
    if k + |pat| <= |s| && s[k..k + |pat|] != pat {
      IndexFromShape(s, pat, k + 1);
    }
  }

  /** `range(of:)`: the first position at which `pat` occurs in `s`, if any. */
  function IndexOf(s: string, pat: string): Option<nat> {
    IndexFrom(s, pat, 0)
  }

  /** `range(of:)` finds a match, and it is the first one; when it finds none there is none. */
  lemma IndexOfShape(s: string, pat: string)
    ensures IndexOf(s, pat).Some? ==> OccursAt(s, pat, IndexOf(s, pat).value)
    ensures forall j :: (IndexOf(s, pat).None? || j < IndexOf(s, pat).value) ==> !OccursAt(s, pat, j)
  {
    IndexFromShape(s, pat, 0);
  }

  predicate Contains(s: string, pat: string) {
    IndexOf(s, pat).Some?
  }

  // ---------------------------------------------------------------------------
  // Numbers in messages

  function DigitChar(d: nat): char
    requires d < 10
  {
    "0123456789"[d]
  }

  /** String interpolation of a non-negative integer. */
  function NatToString(n: nat): (r: string)
    ensures r != []
    ensures forall i :: 0 <= i < |r| ==> '0' <= r[i] <= '9'
  {
    if n < 10 then [DigitChar(n)] else NatToString(n / 10) + [DigitChar(n % 10)]
  }
}
