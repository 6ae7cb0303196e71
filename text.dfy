/** The whitespace rules of Python's `str.strip()` and `str.isspace()`. */
module Text {

  /** The characters for which Python's `str.isspace()` holds, which are also
      the characters `str.strip()` removes when called without an argument. */
  predicate IsSpace(c: char) {
    || c == ' '
    || '\t' <= c <= '\r'
    || '\U{1C}' <= c <= '\U{1F}'
    || c == '\U{85}'
    || c == '\U{A0}'
    || c == '\U{1680}'
    || '\U{2000}' <= c <= '\U{200A}'
    || c == '\U{2028}'
    || c == '\U{2029}'
    || c == '\U{202F}'
    || c == '\U{205F}'
    || c == '\U{3000}'
  }

  predicate AllSpace(s: string) {
    forall i :: 0 <= i < |s| ==> IsSpace(s[i])
  }

  /** The length of the longest all-whitespace prefix of `s`. */
  function LeadingSpaces(s: string): (n: nat)
    ensures n <= |s|
    ensures AllSpace(s[..n])
    ensures n < |s| ==> !IsSpace(s[n])
  {
    if s != [] && IsSpace(s[0]) then
      var n := 1 + LeadingSpaces(s[1..]);
      assert s[..n] == [s[0]] + s[1..][..n - 1];
      n
    else
      0
  }

  /** The length of the longest all-whitespace suffix of `s`. */
  function TrailingSpaces(s: string): (n: nat)
    ensures n <= |s|
    ensures AllSpace(s[|s| - n..])
    ensures n < |s| ==> !IsSpace(s[|s| - 1 - n])
  {
    if s != [] && IsSpace(s[|s| - 1]) then
      var front := s[..|s| - 1];
      var n := 1 + TrailingSpaces(front);
      assert s[|s| - n..] == front[|front| - (n - 1)..] + [s[|s| - 1]];
      n
    else
      0
  }

  /** Python's `s.strip()`: `s` with its leading and trailing whitespace
      removed. The result is the slice of `s` that starts after the leading
      whitespace, only whitespace is cut on either side, and what is left
      neither starts nor ends with whitespace. */
  function Strip(s: string): (r: string)
    ensures r == [] <==> AllSpace(s)
    ensures LeadingSpaces(s) + |r| <= |s|
    ensures r == s[LeadingSpaces(s)..LeadingSpaces(s) + |r|]
    ensures AllSpace(s[..LeadingSpaces(s)]) && AllSpace(s[LeadingSpaces(s) + |r|..])
    ensures r != [] ==> !IsSpace(r[0]) && !IsSpace(r[|r| - 1])
  {
    var lead := LeadingSpaces(s);
    if lead == |s| then
      assert s[..lead] == s;
      ""
    else
      s[lead..|s| - TrailingSpaces(s)]
  }

  /** Stripping twice is stripping once. */
  lemma StripIdempotent(s: string)
    ensures Strip(Strip(s)) == Strip(s)
  {
    var r := Strip(s);
    if r != [] {
      assert LeadingSpaces(r) == 0;
      assert TrailingSpaces(r) == 0;
    }
  }

  /** A stripped string is non-empty exactly when the original holds a
      character that is not whitespace: the test `v.strip()` stands for. */
  lemma StripNonEmptyIff(s: string)
    ensures Strip(s) != [] <==> exists i :: 0 <= i < |s| && !IsSpace(s[i])
  {
  }
}
