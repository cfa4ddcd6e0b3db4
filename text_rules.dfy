/** The rules both compile pipelines apply to a compiler's output: trimming, the text cap and the
    binary cap. */
module TextRules {
  import opened Wrappers

  /** A size limit read from configuration or from the platform. A missing limit (`undefined`)
      makes every `size > limit` comparison false, so nothing ever exceeds it. */
  type Limit = Option<int>

  predicate Exceeds(size: int, limit: Limit) {
    limit.Some? && size > limit.value
  }

  const BinaryLimitMessage := "Compile succeeded but binary limit exceeded"
  const Ellipsis := "..."

  /** The characters `String.prototype.trim` removes: ECMAScript WhiteSpace and LineTerminator. */
  predicate IsWhitespace(c: char) {
    c == '\t' || c == '\n' || c == '\U{000B}' || c == '\U{000C}' || c == '\r' || c == ' ' ||
    c == '\U{00A0}' || c == '\U{1680}' || ('\U{2000}' <= c <= '\U{200A}') ||
    c == '\U{2028}' || c == '\U{2029}' || c == '\U{202F}' || c == '\U{205F}' ||
    c == '\U{3000}' || c == '\U{FEFF}'
  }

  /** `s` without its leading whitespace. */
  function TrimStart(s: string): string
    decreases |s|
  {
    if s != [] && IsWhitespace(s[0]) then TrimStart(s[1..]) else s
  }

  /** Removing leading whitespace leaves a suffix of `s`, everything cut off is whitespace, and
      what is left does not itself start with whitespace. */
  lemma {:induction false} TrimStartFacts(s: string)
    ensures var r := TrimStart(s);
      |r| <= |s| && r == s[|s| - |r|..] &&
      (forall k :: 0 <= k < |s| - |r| ==> IsWhitespace(s[k])) &&
      (r != [] ==> !IsWhitespace(r[0]))
    decreases |s|
  {
    if s != [] && IsWhitespace(s[0]) {
      TrimStartFacts(s[1..]);
      var r := TrimStart(s);
      assert s[1..][|s| - 1 - |r|..] == s[|s| - |r|..];
      forall k | 0 <= k < |s| - |r| ensures IsWhitespace(s[k]) {
        if k > 0 {
          assert s[k] == s[1..][k - 1];
        }
      }
    }
  }

  /** `s` without its trailing whitespace. */
  function TrimEnd(s: string): string
    decreases |s|
  {
    if s != [] && IsWhitespace(s[|s| - 1]) then TrimEnd(s[..|s| - 1]) else s
  }

  /** Removing trailing whitespace leaves a prefix of `s`, everything cut off is whitespace, and
      what is left does not itself end with whitespace. */
  lemma {:induction false} TrimEndFacts(s: string)
    ensures var r := TrimEnd(s);
      |r| <= |s| && r == s[..|r|] &&
      (forall k :: |r| <= k < |s| ==> IsWhitespace(s[k])) &&
      (r != [] ==> !IsWhitespace(r[|r| - 1]))
    decreases |s|
  {
    if s != [] && IsWhitespace(s[|s| - 1]) {
      var t := s[..|s| - 1];
      TrimEndFacts(t);
      var r := TrimEnd(s);
      assert t[..|r|] == s[..|r|];
      forall k | |r| <= k < |s| ensures IsWhitespace(s[k]) {
        if k < |s| - 1 {
          assert s[k] == t[k];
        }
      }
    }
  }

  /** `s.trim()`. */
  function Trim(s: string): string {
    TrimEnd(TrimStart(s))
  }

  /** Where the trimmed text starts in the original: after the leading whitespace. */
  function TrimOffset(s: string): int {
    |s| - |TrimStart(s)|
  }

  /** Trimming keeps a contiguous middle part of the text and removes only whitespace around it;
      what it keeps neither starts nor ends with whitespace. */
  lemma TrimKeepsMiddle(s: string)
    ensures var r, i := Trim(s), TrimOffset(s);
      0 <= i && i + |r| <= |s| && r == s[i..i + |r|] &&
      (forall k :: 0 <= k < i ==> IsWhitespace(s[k])) &&
      (forall k :: i + |r| <= k < |s| ==> IsWhitespace(s[k]))
    ensures Trim(s) != [] ==> !IsWhitespace(Trim(s)[0]) && !IsWhitespace(Trim(s)[|Trim(s)| - 1])
  {
    var t := TrimStart(s);
    var r := TrimEnd(t);
    var i := |s| - |t|;
    TrimStartFacts(s);
    TrimEndFacts(t);
    assert r == s[i..i + |r|];
    assert r != [] ==> !IsWhitespace(r[0]) by {
      if r != [] { assert r[0] == t[0]; }
    }
  }

  /** Trimming twice is trimming once. */
  lemma TrimIdempotent(s: string)
    ensures Trim(Trim(s)) == Trim(s)
  {
    var r := Trim(s);
    if r != [] {
      TrimKeepsMiddle(s);
      assert TrimStart(r) == r;
      assert TrimEnd(r) == r;
    } else {
      assert TrimStart(r) == r;
    }
  }

  function ClampToLength(limit: int, len: nat): (n: nat)
    ensures n <= len
  {
    if limit < 0 then 0 else if limit > len then len else limit
  }

  /** The text cap: text longer than the limit keeps its first `limit` characters (none for a
      negative limit) followed by three dots; other text is left alone. */
  function Truncate(text: string, limit: Limit): string {
    if Exceeds(|text|, limit) then text[..ClampToLength(limit.value, |text|)] + Ellipsis else text
  }

  lemma TruncateFacts(text: string, limit: Limit)
    ensures var r := Truncate(text, limit);
      (!Exceeds(|text|, limit) ==> r == text) &&
      (Exceeds(|text|, limit) && limit.value >= 0 ==>
        |r| == limit.value + 3 && r[..limit.value] == text[..limit.value] && r[limit.value..] == Ellipsis) &&
      (Exceeds(|text|, limit) && limit.value < 0 ==> r == Ellipsis)
  {
    var r := Truncate(text, limit);
    if Exceeds(|text|, limit) && limit.value >= 0 {
      assert r[..limit.value] == text[..limit.value];
    }
  }

  /** The cap never leaves more than the limit plus the three dots, and applying it to its own
      result changes nothing. */
  lemma TruncateBoundedAndStable(text: string, limit: int)
    requires limit >= 0
    ensures |Truncate(text, Some(limit))| <= if |text| <= limit then |text| else limit + 3
    ensures Truncate(Truncate(text, Some(limit)), Some(limit)) == Truncate(text, Some(limit))
  {
    var r := Truncate(text, Some(limit));
    TruncateFacts(text, Some(limit));
    if |text| > limit {
      assert r[..limit] == text[..limit];
      TruncateFacts(r, Some(limit));
    }
  }
}
