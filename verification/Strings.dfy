/** String operations of the JavaScript library that several models use. */
module Strings {
  /** The white space and line terminators that `trim` strips. */
  predicate IsSpace(c: char) {
    var n := c as int;
    9 <= n <= 13 || n == 32 || n == 0xA0 || n == 0x1680 || 0x2000 <= n <= 0x200A ||
    n == 0x2028 || n == 0x2029 || n == 0x202F || n == 0x205F || n == 0x3000 || n == 0xFEFF
  }

  function TrimStart(s: string): string {
    if s != "" && IsSpace(s[0]) then TrimStart(s[1..]) else s
  }

  function TrimEnd(s: string): string {
    if s != "" && IsSpace(s[|s| - 1]) then TrimEnd(s[..|s| - 1]) else s
  }

  function Trim(s: string): string {
    TrimEnd(TrimStart(s))
  }

  /** A string without spaces is left alone. */
  lemma TrimIsIdentity(s: string)
    requires s == "" || (!IsSpace(s[0]) && !IsSpace(s[|s| - 1]))
    ensures Trim(s) == s
  {}

  /** `indexOf`: the least index holding `c`, or -1. */
  function IndexOf(s: string, c: char): (r: int)
    ensures -1 <= r < |s|
    ensures r >= 0 ==> s[r] == c && forall i :: 0 <= i < r ==> s[i] != c
    ensures r == -1 ==> c !in s
  {
    if s == [] then -1
    else if s[0] == c then 0
    else var r := IndexOf(s[1..], c); if r == -1 then -1 else r + 1
  }

  /** The 25 characters that `trim` strips. */
  const SPACES := "\t\n\U{B}\U{C}\r \U{A0}\U{1680}\U{2000}\U{2001}\U{2002}\U{2003}\U{2004}" +
    "\U{2005}\U{2006}\U{2007}\U{2008}\U{2009}\U{200A}\U{2028}\U{2029}\U{202F}\U{205F}\U{3000}\U{FEFF}"

  lemma SpacesAre(c: char)
    ensures IsSpace(c) <==> c in SPACES
  {}
}
