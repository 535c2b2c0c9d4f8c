/** The two Python string operations the command loop applies to its input:
    `str.strip()` with no argument and `str.lower()`. */
module Text {

  /** The ASCII characters Python counts as whitespace: space, tab, line feed,
      vertical tab, form feed, carriage return and the four separators
      U+001C to U+001F. */
  const AsciiSpaces: string := " \t\n\U{000B}\U{000C}\r\U{001C}\U{001D}\U{001E}\U{001F}"

  /** The code points `str.strip()` removes: Python's whitespace characters. */
  predicate IsSpace(c: char) {
    var n := c as int;
    || 9 <= n <= 13 || 0x1c <= n <= 0x20 || n == 0x85 || n == 0xa0 || n == 0x1680
    || 0x2000 <= n <= 0x200a || n == 0x2028 || n == 0x2029 || n == 0x202f
    || n == 0x205f || n == 0x3000
  }

  /** Among ASCII characters, the whitespace is exactly `AsciiSpaces`; every
      other whitespace character is at most U+3000 (they are U+0085, U+00A0,
      U+1680, U+2000 to U+200A, U+2028, U+2029, U+202F, U+205F and U+3000). */
  lemma AsciiWhitespace(c: char)
    ensures c as int < 128 ==> (IsSpace(c) <==> c in AsciiSpaces)
    ensures IsSpace(c) ==> c as int <= 0x3000
  {
  }

  /** `s` holds nothing but whitespace (the empty string included). */
  predicate AllSpace(s: string) {
    forall i :: 0 <= i < |s| ==> IsSpace(s[i])
  }

  /** The first index at or after `i` that does not hold whitespace, or `|s|`. */
  function SkipSpaces(s: string, i: nat): (k: nat)
    requires i <= |s|
    decreases |s| - i
    ensures i <= k <= |s|
    ensures forall j :: i <= j < k ==> IsSpace(s[j])
    ensures k == |s| || !IsSpace(s[k])
  {
    if i < |s| && IsSpace(s[i]) then SkipSpaces(s, i + 1) else i
  }

  /** The end of `s[lo..hi]` once its trailing whitespace is dropped. */
  function SkipSpacesBack(s: string, lo: nat, hi: nat): (k: nat)
    requires lo <= hi <= |s|
    decreases hi
    ensures lo <= k <= hi
    ensures forall j :: k <= j < hi ==> IsSpace(s[j])
    ensures k == lo || !IsSpace(s[k - 1])
  {
    if lo < hi && IsSpace(s[hi - 1]) then SkipSpacesBack(s, lo, hi - 1) else hi
  }

  /** How many whitespace characters `s` starts with. */
  function LeadingSpaces(s: string): (n: nat)
    ensures n <= |s|
  {
    SkipSpaces(s, 0)
  }

  /** `str.strip()`: the slice of `s` after its leading whitespace that neither
      starts nor ends in whitespace and has only whitespace after it; it is empty
      exactly when `s` is all whitespace. */
  function Strip(s: string): (r: string)
    ensures r == [] || (!IsSpace(r[0]) && !IsSpace(r[|r| - 1]))
    ensures r == [] <==> AllSpace(s)
    ensures LeadingSpaces(s) + |r| <= |s|
    ensures r == s[LeadingSpaces(s)..LeadingSpaces(s) + |r|]
    ensures forall i :: 0 <= i < LeadingSpaces(s) ==> IsSpace(s[i])
    ensures forall i :: LeadingSpaces(s) + |r| <= i < |s| ==> IsSpace(s[i])
  {
    var lo := SkipSpaces(s, 0);
    var hi := SkipSpacesBack(s, lo, |s|);
    s[lo..hi]
  }

  /** Stripping twice is stripping once. */
  lemma StripIdempotent(s: string)
    ensures Strip(Strip(s)) == Strip(s)
  {
    var r := Strip(s);
    if r != [] {
      assert SkipSpaces(r, 0) == 0;
      assert SkipSpacesBack(r, 0, |r|) == |r|;
    }
  }

  /** `str.lower()` on one character, for the ASCII letters it changes. */
  function LowerChar(c: char): (l: char)
    ensures 'A' <= c <= 'Z' ==> l as int == c as int + 32
    ensures !('A' <= c <= 'Z') ==> l == c
  {
    if 'A' <= c <= 'Z' then (c as int + 32) as char else c
  }

  /** `str.lower()`, character by character. */
  function Lower(s: string): (r: string)
    ensures |r| == |s|
    ensures forall i :: 0 <= i < |s| ==> r[i] == LowerChar(s[i])
  {
    seq(|s|, i requires 0 <= i < |s| => LowerChar(s[i]))
  }

  /** The one-letter quit command matches in either case, and only then. */
  lemma LowerIsQ(s: string)
    ensures Lower(s) == "q" <==> s == "q" || s == "Q"
  {
    if Lower(s) == "q" {
      assert |s| == 1 && LowerChar(s[0]) == 'q';
      assert s == [s[0]];
    }
    if s == "Q" {
      assert Lower(s)[0] == 'q';
    }
  }

  /** The reset command matches each letter in either case, and only then. */
  lemma LowerIsClear(s: string)
    ensures Lower(s) == "clear" <==>
              |s| == 5 && s[0] in "cC" && s[1] in "lL" && s[2] in "eE" && s[3] in "aA" && s[4] in "rR"
  {
    var target := "clear";
    if |s| == 5 && s[0] in "cC" && s[1] in "lL" && s[2] in "eE" && s[3] in "aA" && s[4] in "rR" {
      forall i | 0 <= i < 5 ensures Lower(s)[i] == target[i] {
      }
    }
  }
}
