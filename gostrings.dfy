/**
 * The string primitives the handlers rely on: white space as Go's unicode.IsSpace
 * defines it, strings.TrimSpace, utf8.RuneCountInString, and the number of bytes
 * that len() reports for the UTF-8 encoding. A Go string is modelled by the
 * sequence of code points it encodes.
 */
module GoStrings {

  /** unicode.IsSpace: the six ASCII spaces, U+0085, U+00A0 and the White_Space code points above Latin-1. */
  predicate IsSpace(c: char) {
    || c == ' ' || c == '\t' || c == '\n' || c == '\U{B}' || c == '\U{C}' || c == '\r'
    || c == '\U{85}' || c == '\U{A0}' || c == '\U{1680}'
    || ('\U{2000}' <= c <= '\U{200A}')
    || c == '\U{2028}' || c == '\U{2029}' || c == '\U{202F}' || c == '\U{205F}' || c == '\U{3000}'
  }

  predicate AllSpace(s: string) {
    forall i :: 0 <= i < |s| ==> IsSpace(s[i])
  }

  /** Drops the leading white space: what is kept is a suffix of s, what is dropped is all space, and what is kept does not start with space. */
  function TrimLeft(s: string): (r: string)
    ensures |r| <= |s|
    ensures r == s[|s| - |r|..] && AllSpace(s[..|s| - |r|])
    ensures r == [] || !IsSpace(r[0])
  {
    if s != [] && IsSpace(s[0]) then
      TrimLeft(s[1..])
    else s
  }

  /** Drops the trailing white space: what is kept is a prefix of s, what is dropped is all space, and what is kept does not end with space. */
  function TrimRight(s: string): (r: string)
    ensures |r| <= |s|
    ensures r == s[..|r|] && AllSpace(s[|r|..])
    ensures r == [] || !IsSpace(r[|r| - 1])
  {
    if s != [] && IsSpace(s[|s| - 1]) then
      TrimRight(s[..|s| - 1])
    else s
  }

  /** strings.TrimSpace. */
  function TrimSpace(s: string): string {
    TrimRight(TrimLeft(s))
  }

  lemma {:induction false} TrimLeftEmptyIffAllSpace(s: string)
    ensures TrimLeft(s) == [] <==> AllSpace(s)
  {
    if s != [] {
      TrimLeftEmptyIffAllSpace(s[1..]);
      assert forall i :: 1 <= i < |s| ==> s[i] == s[1..][i - 1];
    }
  }

  lemma {:induction false} TrimRightEmptyIffAllSpace(s: string)
    ensures TrimRight(s) == [] <==> AllSpace(s)
  {
    if s != [] {
      TrimRightEmptyIffAllSpace(s[..|s| - 1]);
      assert forall i :: 0 <= i < |s| - 1 ==> s[i] == s[..|s| - 1][i];
    }
  }

  /** A string trims to "" exactly when every code point of it is white space. */
  lemma TrimSpaceEmptyIffAllSpace(s: string)
    ensures TrimSpace(s) == [] <==> AllSpace(s)
  {
    var l := TrimLeft(s);
    TrimLeftEmptyIffAllSpace(s);
    TrimRightEmptyIffAllSpace(l);
    assert l != [] ==> !AllSpace(l);
  }

  /** The handlers' blank test, strings.TrimSpace(s) == "": true exactly for all-white-space strings. */
  function IsBlank(s: string): (b: bool)
    ensures b <==> AllSpace(s)
  {
    TrimSpaceEmptyIffAllSpace(s);
    TrimSpace(s) == ""
  }

  /** utf8.RuneCountInString: one rune per code point. */
  function RuneCount(s: string): nat {
    |s|
  }

  /** The number of bytes UTF-8 uses for one code point (utf8.RuneLen). */
  function Utf8Len(c: char): (n: nat)
    ensures 1 <= n <= 4
    ensures n == 1 <==> (c as int) < 0x80
  {
    if (c as int) < 0x80 then 1
    else if (c as int) < 0x800 then 2
    else if (c as int) < 0x10000 then 3
    else 4
  }

  /** len() of the UTF-8 encoding: never fewer bytes than runes, never more than four times as many. */
  function ByteLen(s: string): (n: nat)
    ensures |s| <= n <= 4 * |s|
  {
    if s == [] then 0 else Utf8Len(s[0]) + ByteLen(s[1..])
  }

  /** A string of n copies of one code point takes n times that code point's length in bytes. */
  lemma {:induction false} ByteLenRepeat(n: nat, c: char)
    ensures ByteLen(seq(n, _ => c)) == n * Utf8Len(c)
  {
    if n > 0 {
      var s := seq(n, _ => c);
      assert s[0] == c;
      assert s[1..] == seq(n - 1, _ => c);
      ByteLenRepeat(n - 1, c);
    }
  }
}
