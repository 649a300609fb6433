/** String helpers with the semantics of the JavaScript built-ins the chat
    store relies on: `String.prototype.trim` and the "first n characters
    plus an ellipsis" preview idiom. */
module Text {

  /** The characters `trim` removes: ECMAScript WhiteSpace (tab, vertical
      tab, form feed, space, no-break space, byte-order mark and the Unicode
      space separators) and LineTerminator (LF, CR, LS, PS). */
  predicate IsJsWhitespace(c: char) {
    || c == '\t' || c == '\n' || c == '\U{000B}' || c == '\U{000C}' || c == '\r'
    || c == ' ' || c == '\U{00A0}' || c == '\U{1680}'
    || ('\U{2000}' <= c <= '\U{200A}')
    || c == '\U{2028}' || c == '\U{2029}' || c == '\U{202F}' || c == '\U{205F}'
    || c == '\U{3000}' || c == '\U{FEFF}'
  }

  predicate AllWhitespace(s: string) {
    forall k :: 0 <= k < |s| ==> IsJsWhitespace(s[k])
  }

  /** `s` without its leading whitespace: a suffix of `s` that starts with a
      non-whitespace character, everything cut off being whitespace. */
  function TrimStart(s: string): (r: string)
    ensures |r| <= |s| && r == s[|s| - |r|..]
    ensures AllWhitespace(s[..|s| - |r|])
    ensures r != [] ==> !IsJsWhitespace(r[0])
  {
    if s != [] && IsJsWhitespace(s[0]) then TrimStart(s[1..]) else s
  }

  /** `s` without its trailing whitespace: a prefix of `s` that ends with a
      non-whitespace character, everything cut off being whitespace. */
  function TrimEnd(s: string): (r: string)
    ensures |r| <= |s| && r == s[..|r|]
    ensures AllWhitespace(s[|r|..])
    ensures r != [] ==> !IsJsWhitespace(r[|r| - 1])
  {
    if s != [] && IsJsWhitespace(s[|s| - 1]) then TrimEnd(s[..|s| - 1]) else s
  }

  /** `String.prototype.trim`: the slice of `s` left after removing
      whitespace from both ends. It is empty exactly when `s` is all
      whitespace; `TrimCutsWhitespace` says that everything cut off on
      either side is whitespace. */
  function Trim(s: string): (r: string)
    ensures r == [] <==> AllWhitespace(s)
    ensures r != [] ==> !IsJsWhitespace(r[0]) && !IsJsWhitespace(r[|r| - 1])
  {
    TrimStartEmpty(s);
    TrimEndEmpty(TrimStart(s));
    TrimEnd(TrimStart(s))
  }

  /** What `Trim` keeps is a slice of `s` with only whitespace before and
      after it. */
  lemma TrimCutsWhitespace(s: string)
    ensures var r := Trim(s);
      exists i :: (0 <= i <= |s| - |r| && r == s[i..i + |r|]
        && AllWhitespace(s[..i]) && AllWhitespace(s[i + |r|..]))
  {
    CutsAreWhitespace(s, TrimStart(s), Trim(s));
  }

  /** A prefix `r` of a suffix `front` of `s`, with whitespace cut off
      before `front` and after `r`, is a slice of `s` with whitespace on
      both sides. */
  lemma CutsAreWhitespace(s: string, front: string, r: string)
    requires |front| <= |s| && front == s[|s| - |front|..] && AllWhitespace(s[..|s| - |front|])
    requires |r| <= |front| && r == front[..|r|] && AllWhitespace(front[|r|..])
    ensures var i := |s| - |front|;
      r == s[i..i + |r|] && AllWhitespace(s[..i]) && AllWhitespace(s[i + |r|..])
  {
    SuffixSlices(s, |s| - |front|, |r|);
  }

  /** Slicing a suffix of `s` is slicing `s` itself. */
  lemma SuffixSlices(s: string, i: nat, n: nat)
    requires i + n <= |s|
    ensures s[i..][..n] == s[i..i + n] && s[i..][n..] == s[i + n..]
  {
  }

  lemma TrimStartEmpty(s: string)
    ensures TrimStart(s) == [] <==> AllWhitespace(s)
  {
    var r := TrimStart(s);
    if r == [] {
      assert s[..|s|] == s;
    } else {
      assert s[|s| - |r|] == r[0];
    }
  }

  lemma TrimEndEmpty(s: string)
    ensures s != [] && !IsJsWhitespace(s[0]) ==> TrimEnd(s) != []
  {
    var r := TrimEnd(s);
    if r == [] && s != [] {
      assert s[0] == s[|r|..][0];
    }
  }

  /** The preview idiom `s.length > n ? s.substring(0, n) + '...' : s`.
      Lengths count characters (the source counts UTF-16 code units). */
  function Truncate(s: string, n: nat): (r: string)
    ensures |s| <= n ==> r == s
    ensures |s| > n ==> |r| == n + 3 && r[..n] == s[..n] && r[n..] == "..."
    ensures |r| <= n + 3
  {
    if |s| > n then s[..n] + "..." else s
  }
}
