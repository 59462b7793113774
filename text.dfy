/** The two string operations the parse entry point relies on: trimming
    whitespace from both ends (Rust's `str::trim`) and taking the first line
    of a text (`str::lines().next()`, defaulting to the empty string). */
module Text {

  /** The Unicode White_Space characters, the set `char::is_whitespace`
      accepts and therefore the set `str::trim` removes. */
  predicate IsWhitespace(c: char) {
    || ('\t' <= c <= '\r')   // U+0009 .. U+000D: tab, line feed, vertical tab, form feed, carriage return
    || c == ' '
    || c == '\U{85}'
    || c == '\U{A0}'
    || c == '\U{1680}'
    || ('\U{2000}' <= c <= '\U{200A}')
    || c == '\U{2028}'
    || c == '\U{2029}'
    || c == '\U{202F}'
    || c == '\U{205F}'
    || c == '\U{3000}'
  }

  /** Every character of `s` is whitespace. */
  predicate AllWhitespace(s: string) {
    forall i :: 0 <= i < |s| ==> IsWhitespace(s[i])
  }

  /** `s` without its leading whitespace: a suffix of `s` that starts with a
      non-whitespace character, and everything dropped is whitespace. */
  function TrimStart(s: string): (r: string)
    ensures |r| <= |s| && r == s[|s| - |r|..]
    ensures r == [] || !IsWhitespace(r[0])
    ensures AllWhitespace(s[..|s| - |r|])
  {
    if s != [] && IsWhitespace(s[0]) then TrimStart(s[1..]) else s
  }

  /** `s` without its trailing whitespace: a prefix of `s` that ends with a
      non-whitespace character, and everything dropped is whitespace. */
  function TrimEnd(s: string): (r: string)
    ensures |r| <= |s| && r == s[..|r|]
    ensures r == [] || !IsWhitespace(r[|r| - 1])
    ensures AllWhitespace(s[|r|..])
  {
    if s != [] && IsWhitespace(s[|s| - 1]) then
      var r := TrimEnd(s[..|s| - 1]);
      assert s[|r|..] == s[..|s| - 1][|r|..] + [s[|s| - 1]];
      r
    else
      s
  }

  /** `str::trim`: the slice of `s` left after dropping whitespace at both ends. */
  function Trim(s: string): (r: string)
    ensures exists lo :: 0 <= lo <= |s| - |r| && r == s[lo..lo + |r|]
                         && AllWhitespace(s[..lo]) && AllWhitespace(s[lo + |r|..])
    ensures r == [] || (!IsWhitespace(r[0]) && !IsWhitespace(r[|r| - 1]))
  {
    var t := TrimStart(s);
    var r := TrimEnd(t);
    var lo := |s| - |t|;
    assert r == s[lo..lo + |r|] by {
      assert t[..|r|] == s[lo..lo + |r|];
    }
    assert AllWhitespace(s[lo + |r|..]) by {
      assert s[lo + |r|..] == t[|r|..];
    }
    r
  }

  /** Trimming leaves nothing exactly when the text is all whitespace. */
  lemma TrimEmptyIff(s: string)
    ensures Trim(s) == [] <==> AllWhitespace(s)
  {
  }

  /** The position of the first line feed of `s`, or `|s|` when there is none. */
  function NewlineIndex(s: string): (k: nat)
    ensures k <= |s|
    ensures forall j :: 0 <= j < k ==> s[j] != '\n'
    ensures k < |s| ==> s[k] == '\n'
  {
    if s == [] || s[0] == '\n' then 0 else 1 + NewlineIndex(s[1..])
  }

  /** `s.lines().next().unwrap_or("")`: the text before the first line feed,
      without the carriage return of a "\r\n" line ending; the whole of `s`
      when it holds no line feed, and "" when `s` is empty. */
  function FirstLine(s: string): (r: string)
    ensures r <= s
    ensures '\n' !in r
    ensures '\n' !in s ==> r == s
    ensures '\n' in s ==>
              || (|r| + 1 < |s| && s[|r|] == '\r' && s[|r| + 1] == '\n')
              || (|r| < |s| && s[|r|] == '\n' && (r == [] || r[|r| - 1] != '\r'))
  {
    var k := NewlineIndex(s);
    if k < |s| && 0 < k && s[k - 1] == '\r' then s[..k - 1] else s[..k]
  }

  /** A text that begins with a line feed has an empty first line. */
  lemma FirstLineOfLeadingNewline(s: string)
    requires s != [] && s[0] == '\n'
    ensures FirstLine(s) == ""
  {
  }
}
