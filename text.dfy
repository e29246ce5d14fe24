/** String trimming with Foundation's `CharacterSet.whitespaces`. */
module Text {

  /** Unicode general category Zs plus CHARACTER TABULATION (U+0009).
      Line breaks are not in this set, so they are never trimmed. */
  predicate IsWhitespace(c: char)
  {
    || c == '\t'
    || c == ' '
    || c == '\U{00A0}'
    || c == '\U{1680}'
    || ('\U{2000}' <= c <= '\U{200A}')
    || c == '\U{202F}'
    || c == '\U{205F}'
    || c == '\U{3000}'
  }

  predicate AllWhitespace(s: string)
  {
    forall i :: 0 <= i < |s| ==> IsWhitespace(s[i])
  }

  /** The number of whitespace characters `s` starts with. */
  function LeadingWhitespace(s: string): (n: nat)
    ensures n <= |s|
    ensures forall i :: 0 <= i < n ==> IsWhitespace(s[i])
    ensures n < |s| ==> !IsWhitespace(s[n])
  {
    if s == [] || !IsWhitespace(s[0]) then 0 else 1 + LeadingWhitespace(s[1..])
  }

  /** The number of whitespace characters `s` ends with. */
  function TrailingWhitespace(s: string): (n: nat)
    ensures n <= |s|
    ensures forall i :: |s| - n <= i < |s| ==> IsWhitespace(s[i])
    ensures n < |s| ==> !IsWhitespace(s[|s| - 1 - n])
  {
    if s == [] || !IsWhitespace(s[|s| - 1]) then 0 else 1 + TrailingWhitespace(s[..|s| - 1])
  }

  /** `s.trimmingCharacters(in: .whitespaces)`: the part of `s` left between
      its leading and its trailing whitespace. */
  function Trim(s: string): (r: string)
    ensures r == [] <==> AllWhitespace(s)
    ensures r != [] ==> !IsWhitespace(r[0]) && !IsWhitespace(r[|r| - 1])
    ensures LeadingWhitespace(s) + |r| <= |s|
    ensures r == s[LeadingWhitespace(s)..LeadingWhitespace(s) + |r|]
    ensures forall i :: 0 <= i < |s| && !(LeadingWhitespace(s) <= i < LeadingWhitespace(s) + |r|) ==>
      IsWhitespace(s[i])
  {
    var start := LeadingWhitespace(s);
    if start == |s| then
      []
    else
      var end := |s| - TrailingWhitespace(s);
      assert !IsWhitespace(s[start]);
      s[start..end]
  }

  /** Trimming a string that has no whitespace at either end leaves it as it is. */
  lemma TrimmedIsFixed(s: string)
    requires s != [] ==> !IsWhitespace(s[0]) && !IsWhitespace(s[|s| - 1])
    ensures Trim(s) == s
  {
  }

  /** Trimming is idempotent. */
  lemma TrimIdempotent(s: string)
    ensures Trim(Trim(s)) == Trim(s)
  {
    TrimmedIsFixed(Trim(s));
  }
}
