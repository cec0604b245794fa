/**
 * Character-level string operations used by the asset mover: ASCII
 * `str.lower` / `str.upper`, `str.replace` of one character, and
 * `str.lstrip(chars)`, which removes leading characters drawn from a SET.
 * Only ASCII letters change case; other characters are left alone.
 */
module Text {

  predicate IsUpper(c: char) { 'A' <= c <= 'Z' }

  predicate IsLower(c: char) { 'a' <= c <= 'z' }

  /** `c.lower()` for ASCII letters; every other character is unchanged. */
  function LowerChar(c: char): char
  {
    if IsUpper(c) then (c as int + 32) as char else c
  }

  /** `c.upper()` for ASCII letters; every other character is unchanged. */
  function UpperChar(c: char): char
  {
    if IsLower(c) then (c as int - 32) as char else c
  }

  /** `s.lower()`: the same length, each character lower-cased. */
  function Lower(s: string): (r: string)
    ensures |r| == |s|
    ensures forall i :: 0 <= i < |s| ==> r[i] == LowerChar(s[i])
  {
    if s == [] then [] else [LowerChar(s[0])] + Lower(s[1..])
  }

  /** `s.upper()`: the same length, each character upper-cased. */
  function Upper(s: string): (r: string)
    ensures |r| == |s|
    ensures forall i :: 0 <= i < |s| ==> r[i] == UpperChar(s[i])
  {
    if s == [] then [] else [UpperChar(s[0])] + Upper(s[1..])
  }

  /** `s.replace(from, to)` for single characters: every `from` becomes `to`. */
  function Replace(s: string, from: char, to: char): (r: string)
    ensures |r| == |s|
    ensures forall i :: 0 <= i < |s| ==> r[i] == (if s[i] == from then to else s[i])
  {
    if s == [] then []
    else [if s[0] == from then to else s[0]] + Replace(s[1..], from, to)
  }

  /**
   * `s.lstrip(chars)`: drop leading characters while they belong to `chars`.
   * The result is the suffix of `s` that starts at the first character
   * outside `chars`.
   */
  function LStrip(s: string, chars: set<char>): (r: string)
    ensures |r| <= |s| && r == s[|s| - |r|..]
    ensures forall i :: 0 <= i < |s| - |r| ==> s[i] in chars
    ensures r == [] || r[0] !in chars
    decreases |s|
  {
    if s != [] && s[0] in chars then LStrip(s[1..], chars) else s
  }

  /**
   * The three properties in LStrip's contract pin the result down: any
   * suffix `s[k..]` whose dropped part lies in `chars` and whose first
   * character does not is the result.
   */
  lemma LStripUnique(s: string, chars: set<char>, k: nat)
    requires k <= |s|
    requires forall i :: 0 <= i < k ==> s[i] in chars
    requires k == |s| || s[k] !in chars
    ensures LStrip(s, chars) == s[k..]
  {
  }

  /** Stripping twice strips nothing more. */
  lemma LStripIdempotent(s: string, chars: set<char>)
    ensures LStrip(LStrip(s, chars), chars) == LStrip(s, chars)
  {
    var r := LStrip(s, chars);
    LStripUnique(r, chars, 0);
  }

  predicate IsDigit(c: char) { '0' <= c <= '9' }

  /** The decimal digit character for `n`. */
  function Digit(n: int): (c: char)
    requires 0 <= n < 10
    ensures IsDigit(c)
  {
    ('0' as int + n) as char
  }

  /** The numeric value of a decimal digit character. */
  function DigitValue(c: char): (n: int)
    requires IsDigit(c)
    ensures 0 <= n < 10 && Digit(n) == c
  {
    c as int - '0' as int
  }
}
