/** `String.prototype.trim` of ECMAScript (section 22.1.3.32 of ECMA-262),
    which removes leading and trailing WhiteSpace and LineTerminator code
    points. */
module JsString {

  /** WhiteSpace (section 12.2 of ECMA-262: TAB, VT, FF, ZWNBSP and every
      code point of Unicode category Zs) or LineTerminator (section 12.3:
      LF, CR, LS, PS). */
  predicate IsWhitespace(c: char)
  {
    var n := c as int;
    n == 0x09 || n == 0x0A || n == 0x0B || n == 0x0C || n == 0x0D
    || n == 0x20 || n == 0xA0 || n == 0x1680
    || (0x2000 <= n <= 0x200A)
    || n == 0x2028 || n == 0x2029 || n == 0x202F || n == 0x205F
    || n == 0x3000 || n == 0xFEFF
  }

  predicate AllWhitespace(s: string)
  {
    forall i :: 0 <= i < |s| ==> IsWhitespace(s[i])
  }

  /** How many whitespace code points `s` starts with: all of them are
      whitespace, and the one after them, if any, is not. */
  function LeadingWhitespace(s: string): (n: nat)
    ensures n <= |s|
    ensures forall i :: 0 <= i < n ==> IsWhitespace(s[i])
    ensures n < |s| ==> !IsWhitespace(s[n])
    decreases |s|
  {
    if s != [] && IsWhitespace(s[0]) then 1 + LeadingWhitespace(s[1..]) else 0
  }

  /** Where the trailing whitespace of `s` begins: everything from there on
      is whitespace, and the code point just before, if any, is not. */
  function TrailingWhitespaceStart(s: string): (n: nat)
    ensures n <= |s|
    ensures forall i :: n <= i < |s| ==> IsWhitespace(s[i])
    ensures 0 < n ==> !IsWhitespace(s[n - 1])
    decreases |s|
  {
    if s != [] && IsWhitespace(s[|s| - 1]) then TrailingWhitespaceStart(s[..|s| - 1]) else |s|
  }

  /** `s` without its leading whitespace. */
  function TrimStart(s: string): string
  {
    s[LeadingWhitespace(s)..]
  }

  /** `s` without its trailing whitespace. */
  function TrimEnd(s: string): string
  {
    s[..TrailingWhitespaceStart(s)]
  }

  /** What `Trim` cuts off on either side is whitespace, and what it keeps
      is the piece of `s` in between. */
  lemma TrimCutsWhitespace(s: string)
    ensures var k := LeadingWhitespace(s);
            var r := TrimEnd(TrimStart(s));
            k + |r| <= |s| && r == s[k..k + |r|]
            && AllWhitespace(s[..k]) && AllWhitespace(s[k + |r|..])
  {
    var k := LeadingWhitespace(s);
    var t := TrimStart(s);
    var e := TrailingWhitespaceStart(t);
    WhitespaceHead(s, k);
    WhitespaceTail(t, e);
    CutPieces(s, k, e);
  }

  lemma CutPieces(s: string, k: nat, e: nat)
    requires k + e <= |s|
    ensures s[k..][..e] == s[k..k + e] && s[k..][e..] == s[k + e..]
  {
  }

  lemma WhitespaceHead(s: string, k: nat)
    requires k <= |s| && forall i :: 0 <= i < k ==> IsWhitespace(s[i])
    ensures AllWhitespace(s[..k])
  {
    var p := s[..k];
    forall j | 0 <= j < |p| ensures IsWhitespace(p[j]) {
      assert p[j] == s[j];
    }
  }

  lemma WhitespaceTail(t: string, e: nat)
    requires e <= |t| && forall i :: e <= i < |t| ==> IsWhitespace(t[i])
    ensures AllWhitespace(t[e..])
  {
    var u := t[e..];
    forall j | 0 <= j < |u| ensures IsWhitespace(u[j]) {
      assert u[j] == t[e + j];
    }
  }

  /** `s.trim()`: a contiguous piece of `s` that neither starts nor ends
      with whitespace; it is empty exactly when `s` is all whitespace. */
  function Trim(s: string): (r: string)
    ensures |r| <= |s|
    ensures r != [] ==> !IsWhitespace(r[0]) && !IsWhitespace(r[|r| - 1])
    ensures r == [] <==> AllWhitespace(s)
    ensures exists i :: 0 <= i <= |s| - |r| && r == s[i..i + |r|]
                        && AllWhitespace(s[..i]) && AllWhitespace(s[i + |r|..])
  {
    var k := LeadingWhitespace(s);
    var t := TrimStart(s);
    var r := TrimEnd(t);
    TrimCutsWhitespace(s);
    assert r == [] ==> AllWhitespace(s) by {
      if r == [] {
        assert TrailingWhitespaceStart(t) == 0;
      }
    }
    assert r != [] ==> !AllWhitespace(s) by {
      if r != [] { assert s[k] == t[0]; }
    }
    r
  }

  /** The composer's emptiness test: `content.trim().length === 0`. */
  predicate IsBlank(s: string)
  {
    |Trim(s)| == 0
  }

  /** Trimming twice is trimming once. */
  lemma TrimIdempotent(s: string)
    ensures Trim(Trim(s)) == Trim(s)
  {
  }
}
