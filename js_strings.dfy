/**
 * `String.prototype.trim` as the client applies it to the company name:
 * it strips ECMAScript white space and line terminators from both ends.
 */
module JsStrings {

  /** ECMAScript WhiteSpace (tab, vertical tab, form feed, space, no-break
      space, zero-width no-break space and the Zs category) and LineTerminator
      (line feed, carriage return, line and paragraph separators). */
  const JsWhitespace: set<char> := {
    '\t', '\U{000B}', '\U{000C}', ' ', '\U{00A0}', '\U{FEFF}', '\U{1680}',
    '\U{2000}', '\U{2001}', '\U{2002}', '\U{2003}', '\U{2004}', '\U{2005}',
    '\U{2006}', '\U{2007}', '\U{2008}', '\U{2009}', '\U{200A}',
    '\U{202F}', '\U{205F}', '\U{3000}',
    '\n', '\r', '\U{2028}', '\U{2029}'
  }

  predicate IsJsWhitespace(c: char) {
    c in JsWhitespace
  }

  predicate AllWhitespace(s: string) {
    forall i :: 0 <= i < |s| ==> IsJsWhitespace(s[i])
  }

  /** The number of white-space characters `s` starts with. */
  function LeadingBlanks(s: string): (n: nat)
    ensures n <= |s|
    ensures n < |s| ==> !IsJsWhitespace(s[n])
    decreases |s|
  {
    if |s| > 0 && IsJsWhitespace(s[0]) then 1 + LeadingBlanks(s[1..]) else 0
  }

  /** The number of white-space characters `s` ends with. */
  function TrailingBlanks(s: string): (n: nat)
    ensures n <= |s|
    ensures n < |s| ==> !IsJsWhitespace(s[|s| - 1 - n])
    decreases |s|
  {
    if |s| > 0 && IsJsWhitespace(s[|s| - 1]) then 1 + TrailingBlanks(s[..|s| - 1]) else 0
  }

  /** Every character before the first non-blank one is white space. */
  lemma {:induction false} LeadingBlanksAreBlank(s: string, i: nat)
    requires i < LeadingBlanks(s)
    ensures IsJsWhitespace(s[i])
    decreases |s|
  {
    if i > 0 {
      LeadingBlanksAreBlank(s[1..], i - 1);
    }
  }

  /** Every character after the last non-blank one is white space. */
  lemma {:induction false} TrailingBlanksAreBlank(s: string, i: nat)
    requires |s| - TrailingBlanks(s) <= i < |s|
    ensures IsJsWhitespace(s[i])
    decreases |s|
  {
    if i < |s| - 1 {
      TrailingBlanksAreBlank(s[..|s| - 1], i);
    }
  }

  /** `s.trim()`: the piece of `s` between its leading and its trailing white
      space, which neither starts nor ends with white space. */
  function Trim(s: string): (r: string)
    ensures |r| <= |s|
    ensures LeadingBlanks(s) + |r| <= |s|
    ensures r == s[LeadingBlanks(s)..LeadingBlanks(s) + |r|]
    ensures r == [] || (!IsJsWhitespace(r[0]) && !IsJsWhitespace(r[|r| - 1]))
  {
    var rest := s[LeadingBlanks(s)..];
    rest[..|rest| - TrailingBlanks(rest)]
  }

  /** Everything of `s` after the trimmed piece is white space, so `trim()`
      keeps the whole name up to its last non-blank character. */
  lemma {:induction false} TrimDropsOnlyBlanksAtBack(s: string, i: nat)
    requires LeadingBlanks(s) + |Trim(s)| <= i < |s|
    ensures IsJsWhitespace(s[i])
  {
    TrailingBlanksAreBlank(s[LeadingBlanks(s)..], i - LeadingBlanks(s));
  }

  /** `!name.trim()` holds exactly for names made only of white space
      (including the empty name). */
  lemma {:induction false} TrimEmptyIffBlank(s: string)
    ensures Trim(s) == [] <==> AllWhitespace(s)
  {
    var lead := LeadingBlanks(s);
    var rest := s[lead..];
    if Trim(s) == [] {
      if rest != [] {
        TrailingBlanksAreBlank(rest, 0);
        assert false;
      }
      forall i | 0 <= i < |s| ensures IsJsWhitespace(s[i]) {
        LeadingBlanksAreBlank(s, i);
      }
    } else {
      assert !IsJsWhitespace(s[lead]);
    }
  }

  /** Trimming twice trims nothing more. */
  lemma TrimIdempotent(s: string)
    ensures Trim(Trim(s)) == Trim(s)
  {
  }
}
