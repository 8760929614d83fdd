/**
 * The parts of Go's `strings` package that the gateway uses, over strings
 * as sequences of characters.
 */
module Text {

  /** Go's `unicode.IsSpace`: the Latin-1 spaces and the Unicode category Z spaces. */
  predicate IsSpace(c: char) {
    || c == ' ' || c == '\t' || c == '\n' || c == '\r'
    || c == '\U{000B}' || c == '\U{000C}' || c == '\U{0085}' || c == '\U{00A0}'
    || c == '\U{1680}' || ('\U{2000}' <= c <= '\U{200A}')
    || c == '\U{2028}' || c == '\U{2029}' || c == '\U{202F}' || c == '\U{205F}'
    || c == '\U{3000}'
  }

  predicate AllSpace(s: string) {
    forall i :: 0 <= i < |s| ==> IsSpace(s[i])
  }

  /** A string with no white space at either end. */
  predicate IsTrimmed(s: string) {
    s == [] || (!IsSpace(s[0]) && !IsSpace(s[|s| - 1]))
  }

  /** The first position at or after `i` that does not hold white space. */
  function SkipSpace(s: string, i: nat): (j: nat)
    requires i <= |s|
    ensures i <= j <= |s|
    ensures forall k :: i <= k < j ==> IsSpace(s[k])
    ensures j == |s| || !IsSpace(s[j])
    decreases |s| - i
  {
    if i < |s| && IsSpace(s[i]) then SkipSpace(s, i + 1) else i
  }

  /** The end of `s[lo..j]` once the white space before `j` is dropped. */
  function BackSpace(s: string, lo: nat, j: nat): (k: nat)
    requires lo <= j <= |s|
    ensures lo <= k <= j
    ensures forall m :: k <= m < j ==> IsSpace(s[m])
    ensures k == lo || !IsSpace(s[k - 1])
    decreases j
  {
    if lo < j && IsSpace(s[j - 1]) then BackSpace(s, lo, j - 1) else j
  }

  /** Go's `strings.TrimSpace`: the result is a slice of the input with no white
      space at its ends, and only white space before and after it. */
  function TrimSpace(s: string): (t: string)
    ensures IsTrimmed(t)
    ensures var k := SkipSpace(s, 0);
      && k + |t| <= |s| && t == s[k..k + |t|]
      && AllSpace(s[..k]) && AllSpace(s[k + |t|..])
  {
    var a := SkipSpace(s, 0);
    var b := BackSpace(s, a, |s|);
    s[a..b]
  }

  /** TrimSpace gives back exactly the trimmed text between two runs of white space. */
  lemma TrimSpacePadded(w1: string, x: string, w2: string)
    requires AllSpace(w1) && AllSpace(w2) && IsTrimmed(x)
    ensures TrimSpace(w1 + x + w2) == x
  {
    var s := w1 + x + w2;
    var a := SkipSpace(s, 0);
    var b := BackSpace(s, a, |s|);
    if x == [] {
      assert forall k :: 0 <= k < |s| ==> IsSpace(s[k]) by {
        forall k | 0 <= k < |s| ensures IsSpace(s[k]) {
          if k < |w1| { assert s[k] == w1[k]; } else { assert s[k] == w2[k - |w1|]; }
        }
      }
      assert a == |s|;
    } else {
      var e := |w1| + |x|;
      assert s[|w1|] == x[0] && s[e - 1] == x[|x| - 1];
      assert a == |w1| by {
        forall k | 0 <= k < |w1| ensures IsSpace(s[k]) { assert s[k] == w1[k]; }
      }
      assert b == e by {
        forall m | e <= m < |s| ensures IsSpace(s[m]) { assert s[m] == w2[m - e]; }
      }
      assert s[a..b] == x;
    }
  }

  /** ASCII case mapping of one character. */
  function LowerChar(c: char): (d: char)
    ensures !('A' <= d <= 'Z')
    ensures 'A' <= c <= 'Z' || d == c
  {
    if 'A' <= c <= 'Z' then (c as int + 32) as char else c
  }

  /** Go's `strings.ToLower`, for ASCII letters. */
  function ToLower(s: string): (t: string)
    ensures |t| == |s|
    ensures forall i :: 0 <= i < |s| ==> t[i] == LowerChar(s[i])
  {
    seq(|s|, i requires 0 <= i < |s| => LowerChar(s[i]))
  }

  lemma ToLowerConcat(a: string, b: string)
    ensures ToLower(a + b) == ToLower(a) + ToLower(b)
  {
  }

  /** Lower-casing neither creates nor removes white space, so it keeps a
      white-space run and a trimmed string as they are. */
  lemma ToLowerSpacing(s: string)
    ensures AllSpace(s) ==> AllSpace(ToLower(s))
    ensures IsTrimmed(s) ==> IsTrimmed(ToLower(s))
  {
  }

  /** A string without upper-case ASCII letters. */
  predicate IsLower(s: string) {
    forall i :: 0 <= i < |s| ==> !('A' <= s[i] <= 'Z')
  }

  /** Lower-casing changes nothing in a lower-case string, so it is idempotent. */
  lemma ToLowerOfLower(s: string)
    requires IsLower(s)
    ensures ToLower(s) == s
  {
  }

  /** Go's `strings.EqualFold` against an ASCII word. */
  predicate EqualFold(s: string, word: string)
    ensures EqualFold(s, word) <==> |s| == |word| && forall i :: 0 <= i < |s| ==> LowerChar(s[i]) == LowerChar(word[i])
  {
    |s| == |word| && ToLower(s) == ToLower(word)
  }

  /** Go's `strings.CutSuffix`. */
  function CutSuffix(s: string, suffix: string): (r: (string, bool))
    ensures r.1 <==> |suffix| <= |s| && s[|s| - |suffix|..] == suffix
    ensures r.1 ==> r.0 + suffix == s
    ensures !r.1 ==> r.0 == s
  {
    if |suffix| <= |s| && s[|s| - |suffix|..] == suffix then
      (s[..|s| - |suffix|], true)
    else
      (s, false)
  }

  /** The first element of Go's `strings.SplitN(s, " ", 2)`: the text before the
      first space, or all of `s` when it has none. */
  function FirstField(s: string): (w: string)
    ensures |w| <= |s| && w == s[..|w|]
    ensures ' ' !in w
    ensures |w| < |s| ==> s[|w|] == ' '
  {
    if s == [] || s[0] == ' ' then [] else [s[0]] + FirstField(s[1..])
  }

  /** The first field of a word followed by a space, or by nothing, is the word. */
  lemma FirstFieldOfWord(word: string, tail: string)
    requires ' ' !in word
    requires tail == [] || tail[0] == ' '
    ensures FirstField(word + tail) == word
  {
    var s := word + tail;
    var w := FirstField(s);
    assert w == s[..|word|];
  }

  /** The index of the first occurrence of `c` in `s`, or `|s|` when there is none. */
  function IndexOf(s: string, c: char): (i: nat)
    ensures i <= |s|
    ensures c !in s[..i]
    ensures i < |s| ==> s[i] == c
  {
    if s == [] || s[0] == c then 0 else 1 + IndexOf(s[1..], c)
  }
}
