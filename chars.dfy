/** Character classes used by the classifier's regular expressions and by the
    generator's alphabets, restricted to ASCII, and the UTF-8 byte length the
    generator uses to measure its output. */
module Chars {

  /** `\d`: an ASCII decimal digit. */
  predicate IsDigit(c: char) {
    '0' <= c <= '9'
  }

  /** `[a-zA-Z]`: an ASCII letter. */
  predicate IsLetter(c: char) {
    'a' <= c <= 'z' || 'A' <= c <= 'Z'
  }

  /** `[a-zA-Z0-9]`. */
  predicate IsAlnum(c: char) {
    IsLetter(c) || IsDigit(c)
  }

  /** The ASCII characters Python treats as whitespace, both in `str.strip()`
      and in the regular-expression class `\s`: tab, line feed, vertical tab,
      form feed, carriage return, the four separators 0x1C..0x1F, and space. */
  predicate IsSpace(c: char) {
    '\t' <= c <= '\r' || '\U{1C}' <= c <= ' '
  }

  predicate IsAscii(c: char) {
    c < '\U{80}'
  }

  /** The `k`-th character of `string.ascii_letters`: the lower-case
      letters, then the upper-case ones. */
  function NthLetter(k: nat): (c: char)
    requires k < 52
    ensures IsLetter(c)
  {
    if k < 26 then ('a' as int + k) as char else ('A' as int + (k - 26)) as char
  }

  /** `string.ascii_letters`: "abc...xyzABC...XYZ". */
  function AsciiLetters(): (s: string)
    ensures |s| == 52 && forall k :: 0 <= k < 52 ==> s[k] == NthLetter(k)
  {
    seq(52, k requires 0 <= k < 52 => NthLetter(k))
  }

  /** `string.ascii_letters + string.digits`: the letters, then "0123456789". */
  function AsciiLettersAndDigits(): (s: string)
    ensures |s| == 62
    ensures forall k :: 0 <= k < 52 ==> s[k] == NthLetter(k)
    ensures forall k :: 52 <= k < 62 ==> s[k] == ('0' as int + (k - 52)) as char
  {
    AsciiLetters() + seq(10, k requires 0 <= k < 10 => ('0' as int + k) as char)
  }

  predicate AllLetters(s: string) {
    forall i :: 0 <= i < |s| ==> IsLetter(s[i])
  }

  predicate AllDigits(s: string) {
    forall i :: 0 <= i < |s| ==> IsDigit(s[i])
  }

  predicate AllAlnum(s: string) {
    forall i :: 0 <= i < |s| ==> IsAlnum(s[i])
  }

  predicate AllSpaces(s: string) {
    forall i :: 0 <= i < |s| ==> IsSpace(s[i])
  }

  predicate AllAscii(s: string) {
    forall i :: 0 <= i < |s| ==> IsAscii(s[i])
  }

  /** Every choice from `ascii_letters + digits` is a letter or a digit. */
  lemma {:induction false} LettersAndDigitsAlphabet(k: nat)
    requires k < 62
    ensures IsAlnum(AsciiLettersAndDigits()[k])
  {
  }

  /** The number of bytes `c` takes in UTF-8. */
  function Utf8Width(c: char): (n: nat)
    ensures 1 <= n <= 4
    ensures n == 1 <==> IsAscii(c)
  {
    if c < '\U{80}' then 1
    else if c < '\U{800}' then 2
    else if c < '\U{10000}' then 3
    else 4
  }

  /** `len(s.encode('utf-8'))`. */
  function Utf8Length(s: string): nat {
    if s == [] then 0 else Utf8Length(s[..|s| - 1]) + Utf8Width(s[|s| - 1])
  }

  /** UTF-8 spends one byte per character exactly on ASCII text, and never
      fewer bytes than characters. */
  lemma {:induction false} Utf8LengthAscii(s: string)
    ensures Utf8Length(s) >= |s|
    ensures Utf8Length(s) == |s| <==> AllAscii(s)
  {
    if s != [] {
      var init := s[..|s| - 1];
      Utf8LengthAscii(init);
      assert AllAscii(s) <==> AllAscii(init) && IsAscii(s[|s| - 1]) by {
        if AllAscii(init) && IsAscii(s[|s| - 1]) {
          forall i | 0 <= i < |s| ensures IsAscii(s[i]) {
            if i < |s| - 1 { assert s[i] == init[i]; }
          }
        }
      }
    }
  }

}
