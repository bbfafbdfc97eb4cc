/**
 * The pure line tests of the question scanner: the joined line text, the
 * numbering pattern `^\s*(\d+)[.\s]`, the starter-word pattern matched with
 * `re.IGNORECASE`, `len(text.split())`, and the option-row pattern
 * `^[A-D][\.\)]`.
 */
module TextPatterns {
  import opened Options

  /** Python's whitespace (`str.isspace()`, which is also the `\s` class of a str pattern). */
  predicate IsSpace(c: char) {
    c == ' ' || ('\t' <= c <= '\r') || ('\U{1c}' <= c <= '\U{1f}')
    || c == '\U{85}' || c == '\U{a0}' || c == '\U{1680}'
    || ('\U{2000}' <= c <= '\U{200a}') || c == '\U{2028}' || c == '\U{2029}'
    || c == '\U{202f}' || c == '\U{205f}' || c == '\U{3000}'
  }

  predicate IsDigit(c: char) {
    '0' <= c <= '9'
  }

  function DigitValue(c: char): nat {
    if IsDigit(c) then (c as int) - ('0' as int) else 0
  }

  /** `int(ds)` for a run of decimal digits. */
  function DigitsValue(ds: string): nat {
    if ds == [] then 0 else 10 * DigitsValue(ds[..|ds| - 1]) + DigitValue(ds[|ds| - 1])
  }

  // ---------------------------------------------------------------- joining

  /** `' '.join(ts)`: the texts separated by a single space. */
  function JoinSpace(ts: seq<string>): (r: string)
    ensures ts != [] ==> ts[0] <= r
    ensures |ts| > 1 ==> |r| > |ts[0]| && r[|ts[0]|] == ' '
    ensures |ts| == 1 ==> r == ts[0]
    ensures ts == [] ==> r == ""
  {
    if ts == [] then ""
    else if |ts| == 1 then ts[0]
    else ts[0] + " " + JoinSpace(ts[1..])
  }

  // ------------------------------------------------------ numbering pattern

  /** The first index at or after `i` that is not whitespace. */
  function SkipSpaces(s: string, i: nat): (j: nat)
    requires i <= |s|
    ensures i <= j <= |s|
    ensures forall k :: i <= k < j ==> IsSpace(s[k])
    ensures j == |s| || !IsSpace(s[j])
    decreases |s| - i
  {
    if i < |s| && IsSpace(s[i]) then SkipSpaces(s, i + 1) else i
  }

  /** The first index at or after `i` that is not a digit. */
  function DigitsEnd(s: string, i: nat): (j: nat)
    requires i <= |s|
    ensures i <= j <= |s|
    ensures forall k :: i <= k < j ==> IsDigit(s[k])
    ensures j == |s| || !IsDigit(s[j])
    decreases |s| - i
  {
    if i < |s| && IsDigit(s[i]) then DigitsEnd(s, i + 1) else i
  }

  /**
   * `re.match(r'^\s*(\d+)[.\s]', s)`: the leading number of a heading line,
   * if the line has one.  The digit run is maximal, because no digit matches
   * `[.\s]` and no whitespace matches `\d`.
   */
  function LeadingNumber(s: string): Option<nat> {
    var i := SkipSpaces(s, 0);
    var j := DigitsEnd(s, i);
    if i < j < |s| && (s[j] == '.' || IsSpace(s[j])) then Some(DigitsValue(s[i..j])) else None
  }

  /** The regular expression's own reading: whitespace `s[..i]`, digits `s[i..j]`, then `.` or whitespace. */
  predicate NumberedAt(s: string, i: nat, j: nat) {
    i < j < |s|
    && (forall k :: 0 <= k < i ==> IsSpace(s[k]))
    && (forall k :: i <= k < j ==> IsDigit(s[k]))
    && (s[j] == '.' || IsSpace(s[j]))
  }

  /** The scanner finds number `n` exactly when the pattern matches with group 1 spelling `n`. */
  lemma LeadingNumberIsPatternMatch(s: string, n: nat)
    ensures LeadingNumber(s) == Some(n) <==>
            exists i: nat, j: nat :: NumberedAt(s, i, j) && DigitsValue(s[i..j]) == n
  {
    var i0 := SkipSpaces(s, 0);
    var j0 := DigitsEnd(s, i0);
    if LeadingNumber(s) == Some(n) {
      assert NumberedAt(s, i0, j0) && DigitsValue(s[i0..j0]) == n;
    }
    if exists i: nat, j: nat :: NumberedAt(s, i, j) && DigitsValue(s[i..j]) == n {
      var i: nat, j: nat :| NumberedAt(s, i, j) && DigitsValue(s[i..j]) == n;
      assert !IsSpace(s[i]);
      assert i0 == i;
      assert !IsDigit(s[j]);
      assert j0 == j;
    }
  }

  // ------------------------------------------------------- word splitting

  /** The first index at or after `i` that is whitespace. */
  function WordEnd(s: string, i: nat): (j: nat)
    requires i <= |s|
    ensures i <= j <= |s|
    ensures forall k :: i <= k < j ==> !IsSpace(s[k])
    ensures j == |s| || IsSpace(s[j])
    decreases |s| - i
  {
    if i < |s| && !IsSpace(s[i]) then WordEnd(s, i + 1) else i
  }

  predicate IsWord(w: string) {
    w != [] && forall m :: 0 <= m < |w| ==> !IsSpace(w[m])
  }

  /** `s.split()`: the maximal runs of non-whitespace, in order. */
  function Split(s: string): (words: seq<string>)
    ensures forall k :: 0 <= k < |words| ==> IsWord(words[k])
    decreases |s|
  {
    var i := SkipSpaces(s, 0);
    if i == |s| then []
    else
      var j := WordEnd(s, i);
      [s[i..j]] + Split(s[j..])
  }

  /** Position `i` begins a word: it is not whitespace and follows whitespace or the start. */
  predicate StartsWord(s: string, i: nat)
    requires i < |s|
  {
    !IsSpace(s[i]) && (i == 0 || IsSpace(s[i - 1]))
  }

  /** The number of word beginnings at positions `i..|s|`. */
  function WordStartsFrom(s: string, i: nat): nat
    requires i <= |s|
    decreases |s| - i
  {
    if i == |s| then 0 else (if StartsWord(s, i) then 1 else 0) + WordStartsFrom(s, i + 1)
  }

  lemma {:induction false} NoStartsBetween(s: string, a: nat, b: nat)
    requires a <= b <= |s|
    requires forall k :: a <= k < b ==> !StartsWord(s, k)
    ensures WordStartsFrom(s, a) == WordStartsFrom(s, b)
    decreases b - a
  {
    if a < b {
      NoStartsBetween(s, a + 1, b);
    }
  }

  lemma {:induction false} StartsOfSuffix(s: string, j: nat, i: nat)
    requires j <= i <= |s|
    requires j == 0 || j == |s| || IsSpace(s[j - 1]) || IsSpace(s[j])
    ensures WordStartsFrom(s, i) == WordStartsFrom(s[j..], i - j)
    decreases |s| - i
  {
    if i < |s| {
      StartsOfSuffix(s, j, i + 1);
      assert StartsWord(s, i) == StartsWord(s[j..], i - j);
    }
  }

  /** `len(s.split())` counts the word beginnings of `s`. */
  lemma {:induction false} SplitCountsWordStarts(s: string)
    ensures |Split(s)| == WordStartsFrom(s, 0)
    decreases |s|
  {
    var i := SkipSpaces(s, 0);
    NoStartsBetween(s, 0, i);
    if i < |s| {
      var j := WordEnd(s, i);
      assert StartsWord(s, i);
      NoStartsBetween(s, i + 1, j);
      StartsOfSuffix(s, j, j);
      SplitCountsWordStarts(s[j..]);
    }
  }

  /** Skipping whitespace from `i` stops at the first non-space position, so any such `r` is its result. */
  lemma SkipSpacesAt(s: string, i: nat, r: nat)
    requires i <= r <= |s|
    requires forall k :: i <= k < r ==> IsSpace(s[k])
    requires r == |s| || !IsSpace(s[r])
    ensures SkipSpaces(s, i) == r
  {
  }

  /** A word run from `i` ends at the first whitespace position, so any such `r` is its end. */
  lemma WordEndAt(s: string, i: nat, r: nat)
    requires i <= r <= |s|
    requires forall k :: i <= k < r ==> !IsSpace(s[k])
    requires r == |s| || IsSpace(s[r])
    ensures WordEnd(s, i) == r
  {
  }

  /** Skipping a leading space: the whitespace run of `s` is one longer than that of `s[1..]`. */
  lemma SkipSpacesShift(s: string)
    requires s != [] && IsSpace(s[0])
    ensures SkipSpaces(s, 0) == SkipSpaces(s[1..], 0) + 1
  {
    SkipSpacesAt(s, 0, SkipSpaces(s[1..], 0) + 1);
  }

  /** A word run in `s[1..]` from `i` ends one position earlier than the same run in `s`. */
  lemma WordEndShift(s: string, i: nat)
    requires i < |s| - 1
    ensures WordEnd(s, i + 1) == WordEnd(s[1..], i) + 1
  {
    WordEndAt(s, i + 1, WordEnd(s[1..], i) + 1);
  }

  /** A leading space does not change the words. */
  lemma SplitSkipsSpace(s: string)
    requires s != [] && IsSpace(s[0])
    ensures Split(s) == Split(s[1..])
  {
    var t := s[1..];
    var i := SkipSpaces(t, 0);
    assert SkipSpaces(s, 0) == i + 1 by { SkipSpacesShift(s); }
    if i < |t| {
      var j := WordEnd(t, i);
      assert Split(s) == [t[i..j]] + Split(t[j..]) by {
        WordEndShift(s, i);
        SlicesOfTail(s, i, j);
        SplitFirst(s, i + 1, j + 1);
      }
      SplitFirst(t, i, j);
    }
  }

  /** The first word of `s` runs from `i` to `j`, and the rest of the words come from `s[j..]`. */
  lemma SplitFirst(s: string, i: nat, j: nat)
    requires i == SkipSpaces(s, 0) < |s| && j == WordEnd(s, i)
    ensures Split(s) == [s[i..j]] + Split(s[j..])
  {
  }

  /** Slicing `s[1..]` is slicing `s` one position further on. */
  lemma SlicesOfTail(s: string, a: nat, b: nat)
    requires a <= b < |s|
    ensures s[a + 1..b + 1] == s[1..][a..b]
    ensures s[b + 1..] == s[1..][b..]
  {
    assert forall k :: 0 <= k < b - a ==> s[a + 1..b + 1][k] == s[1..][a..b][k];
    assert |s[b + 1..]| == |s[1..][b..]|;
    assert forall k :: 0 <= k < |s[b + 1..]| ==> s[b + 1..][k] == s[1..][b..][k];
  }

  /** A word followed by `rest` splits into that word, then the words of `rest`. */
  lemma SplitWordThen(w: string, rest: string)
    requires IsWord(w)
    requires rest == [] || IsSpace(rest[0])
    ensures Split(w + rest) == [w] + Split(rest)
  {
    var s := w + rest;
    SkipSpacesAt(s, 0, 0);
    WordEndAt(s, 0, |w|);
    assert s[0..|w|] == w;
    assert s[|w|..] == rest;
  }

  /**
   * Joining words with single spaces and splitting on whitespace gives the
   * words back.  Texts with blanks inside (the extractor keeps them) or
   * empty texts are not words, and for them the round trip fails.
   */
  lemma {:induction false} SplitJoinSpace(ts: seq<string>)
    requires forall k :: 0 <= k < |ts| ==> IsWord(ts[k])
    ensures Split(JoinSpace(ts)) == ts
    decreases |ts|
  {
    if ts == [] {
      SkipSpacesAt("", 0, 0);
    } else if |ts| == 1 {
      SplitWordThen(ts[0], "");
      SkipSpacesAt("", 0, 0);
      assert ts[0] + "" == ts[0];
    } else {
      var rest := JoinSpace(ts[1..]);
      SplitJoinSpace(ts[1..]);
      SplitWordThen(ts[0], " " + rest);
      SplitSkipsSpace(" " + rest);
      assert (" " + rest)[1..] == rest;
      assert ts[0] + " " + rest == ts[0] + (" " + rest);
      assert [ts[0]] + ts[1..] == ts;
    }
  }

  // --------------------------------------------------- starter-word pattern

  /**
   * The case folding `re.IGNORECASE` applies when comparing against the
   * lower-case starter words: ASCII letters, plus the non-ASCII characters the
   * regular-expression engine treats as equal to `i`, `s` or `k`.
   */
  function FoldCase(c: char): char {
    if 'A' <= c <= 'Z' then ((c as int) + 32) as char
    else if c == '\U{130}' || c == '\U{131}' then 'i'
    else if c == '\U{17f}' then 's'
    else if c == '\U{212a}' then 'k'
    else c
  }

  /** The fourteen alternatives of the starter pattern, lower-cased. */
  const StarterWords: seq<string> :=
    ["which", "what", "how", "why", "where", "when", "whose", "who",
     "in", "the", "if", "define", "state", "calculate"]

  /** `s` begins with `w`, ignoring case; no word boundary is required after it. */
  predicate StartsWithFolded(s: string, w: string) {
    |w| <= |s| && forall k :: 0 <= k < |w| ==> FoldCase(s[k]) == w[k]
  }

  predicate HasStarter(s: string) {
    exists k :: 0 <= k < |StarterWords| && StartsWithFolded(s, StarterWords[k])
  }

  /** The starter test of the scanner: a starter prefix and more than three words. */
  predicate IsStarterLine(s: string) {
    HasStarter(s) && |Split(s)| > 3
  }

  /** A starter line has more than three word beginnings. */
  lemma StarterLineHasFourWords(s: string)
    requires IsStarterLine(s)
    ensures WordStartsFrom(s, 0) > 3
  {
    SplitCountsWordStarts(s);
  }

  /** The starter match is a plain prefix: whatever follows a match, the line still matches. */
  lemma StarterIsPlainPrefix(s: string, t: string)
    requires HasStarter(s)
    ensures HasStarter(s + t)
  {
    var k :| 0 <= k < |StarterWords| && StartsWithFolded(s, StarterWords[k]);
    assert StartsWithFolded(s + t, StarterWords[k]);
  }

  /** There is no word boundary after the starter: "In" matches the start of "Insects". */
  lemma StarterMatchesInsects()
    ensures HasStarter("Insects have six legs")
  {
    assert StartsWithFolded("Insects have six legs", StarterWords[8]);
  }

  // ---------------------------------------------------------- option rows

  /**
   * `re.match(r'^[A-D][\.\)]', s)`.  An option row starts with neither
   * whitespace nor a digit, so it has no leading number, and no starter word
   * begins with a letter A-D followed by `.` or `)`.
   */
  predicate IsOptionRow(s: string)
    ensures IsOptionRow(s) ==> LeadingNumber(s) == None && !HasStarter(s)
  {
    |s| >= 2 && 'A' <= s[0] <= 'D' && (s[1] == '.' || s[1] == ')')
  }
}
