/** The string primitives the search widgets use: `String.prototype.trim`,
    `toLowerCase` and `includes`. */
module Text {

  /** The characters `trim` strips: ECMAScript's WhiteSpace (tab, vertical
      tab, form feed, space, no-break space, the byte order mark and the
      Unicode space separators) and LineTerminator (line feed, carriage
      return, line and paragraph separators). Among the ASCII characters
      these are exactly the space and the five controls tab to carriage
      return. */
  function IsWhitespace(c: char): (b: bool)
    ensures c < '\U{0080}' ==> (b <==> c == ' ' || '\t' <= c <= '\r')
  {
    c == '\t' || c == '\n' || c == '\U{000B}' || c == '\U{000C}' || c == '\r' ||
    c == ' ' || c == '\U{00A0}' || c == '\U{1680}' ||
    ('\U{2000}' <= c <= '\U{200A}') ||
    c == '\U{2028}' || c == '\U{2029}' || c == '\U{202F}' || c == '\U{205F}' ||
    c == '\U{3000}' || c == '\U{FEFF}'
  }

  /** How many whitespace characters `s` starts with. */
  function LeadingSpace(s: string): (n: nat)
    ensures n <= |s|
    ensures forall k :: 0 <= k < n ==> IsWhitespace(s[k])
    ensures n == |s| || !IsWhitespace(s[n])
  {
    if s != [] && IsWhitespace(s[0]) then 1 + LeadingSpace(s[1..]) else 0
  }

  /** How many whitespace characters `s` ends with. */
  function TrailingSpace(s: string): (n: nat)
    ensures n <= |s|
    ensures forall k :: |s| - n <= k < |s| ==> IsWhitespace(s[k])
    ensures n == |s| || !IsWhitespace(s[|s| - n - 1])
  {
    if s != [] && IsWhitespace(s[|s| - 1]) then 1 + TrailingSpace(s[..|s| - 1]) else 0
  }

  /** `s.trim()`: the piece of `s` left once the whitespace at both ends is
      cut off. It starts where the leading whitespace ends, everything after
      it is whitespace, and it neither starts nor ends with whitespace. */
  function Trim(s: string): (r: string)
    ensures |r| <= |s|
    ensures var i := LeadingSpace(s); i + |r| <= |s| && r == s[i..i + |r|]
    ensures forall k :: LeadingSpace(s) + |r| <= k < |s| ==> IsWhitespace(s[k])
    ensures r == [] || (!IsWhitespace(r[0]) && !IsWhitespace(r[|r| - 1]))
  {
    var t := s[LeadingSpace(s)..];
    t[..|t| - TrailingSpace(t)]
  }

  /** Trimming twice is trimming once. */
  lemma TrimIdempotent(s: string)
    ensures Trim(Trim(s)) == Trim(s)
  {
    var r := Trim(s);
    if r != [] {
      TrimUntouched(r);
    }
  }

  /** A string with no whitespace at either end is its own trim. */
  lemma TrimUntouched(s: string)
    requires s == [] || (!IsWhitespace(s[0]) && !IsWhitespace(s[|s| - 1]))
    ensures Trim(s) == s
  {
    if s != [] {
      assert LeadingSpace(s) == 0;
      assert TrailingSpace(s) == 0;
    }
  }

  /** A string made only of whitespace trims to the empty string. */
  lemma TrimAllSpace(s: string)
    requires forall k :: 0 <= k < |s| ==> IsWhitespace(s[k])
    ensures Trim(s) == []
  {
  }

  /** `c.toLowerCase()` for one character: the ASCII capitals A to Z map to
      their small letters, everything else is left as it is. */
  function LowerChar(c: char): (d: char)
    ensures 'A' <= c <= 'Z' ==> 'a' <= d <= 'z' && d as int - c as int == 32
    ensures !('A' <= c <= 'Z') ==> d == c
  {
    if 'A' <= c <= 'Z' then (c as int + 32) as char else c
  }

  /** `s.toLowerCase()`, character by character. */
  function Lower(s: string): (r: string)
    ensures |r| == |s|
    ensures forall k :: 0 <= k < |s| ==> r[k] == LowerChar(s[k])
  {
    if s == [] then [] else [LowerChar(s[0])] + Lower(s[1..])
  }

  /** `s.includes(t)`: `t` is a prefix of `s` or of one of its suffixes.
      Every string includes the empty string and itself, and nothing longer
      than itself. */
  function Includes(s: string, t: string): (b: bool)
    ensures t == [] ==> b
    ensures t <= s ==> b
    ensures b ==> |t| <= |s|
    decreases |s|
  {
    t <= s || (s != [] && Includes(s[1..], t))
  }

  /** `t` occurs in `s` at some position. */
  ghost predicate Occurs(t: string, s: string) {
    exists i :: 0 <= i <= |s| - |t| && t <= s[i..]
  }

  /** `Includes` holds exactly when `t` occurs in `s` at some position. */
  lemma {:induction false} IncludesIff(s: string, t: string)
    ensures Includes(s, t) <==> Occurs(t, s)
    decreases |s|
  {
    if t <= s {
      assert t <= s[0..];
    } else if s != [] {
      IncludesIff(s[1..], t);
      if Includes(s[1..], t) {
        var i :| 0 <= i <= |s| - 1 - |t| && t <= s[1..][i..];
        assert s[1..][i..] == s[i + 1..];
      } else {
        forall i | 0 <= i <= |s| - |t|
          ensures !(t <= s[i..])
        {
          if i > 0 {
            assert s[1..][i - 1..] == s[i..];
          }
        }
      }
    }
  }

}
