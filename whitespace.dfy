/**
 * Python's `str.strip()` with no argument: remove every leading and trailing
 * character for which `str.isspace()` holds. The summarizer trims the text it
 * reads before checking it for emptiness, and trims the model's reply before
 * printing it.
 */
module Whitespace {

  /**
   * Python's `str.isspace()` on one character: the characters of Unicode
   * general category Zs and of bidirectional class WS, B or S.
   */
  predicate IsSpace(c: char) {
    ('\t' <= c <= '\r') || ('\U{1C}' <= c <= '\U{1F}') || c == ' '
    || c == '\U{85}' || c == '\U{A0}' || c == '\U{1680}'
    || ('\U{2000}' <= c <= '\U{200A}') || c == '\U{2028}' || c == '\U{2029}'
    || c == '\U{202F}' || c == '\U{205F}' || c == '\U{3000}'
  }

  /**
   * Among ASCII characters, `IsSpace` holds for exactly space, tab, newline,
   * carriage return, vertical tab, form feed and the four information
   * separators U+001C..U+001F; no whitespace character lies beyond the
   * ideographic space U+3000.
   */
  lemma SpaceCharacters(c: char)
    ensures c < '\U{80}' ==> (IsSpace(c) <==> c in " \t\n\r\U{B}\U{C}\U{1C}\U{1D}\U{1E}\U{1F}")
    ensures IsSpace(c) ==> c <= '\U{3000}'
  {
  }

  predicate AllSpace(s: string) {
    forall i :: 0 <= i < |s| ==> IsSpace(s[i])
  }

  /** Neither the first nor the last character of `s` is whitespace. */
  predicate NoOuterSpace(s: string) {
    s == [] || (!IsSpace(s[0]) && !IsSpace(s[|s| - 1]))
  }

  /** `s.lstrip()`: the longest suffix of `s` that does not start with whitespace. */
  function TrimStart(s: string): (r: string)
    ensures |r| <= |s| && r == s[|s| - |r|..]
    ensures AllSpace(s[..|s| - |r|])
    ensures r != [] ==> !IsSpace(r[0])
  {
    if s != [] && IsSpace(s[0]) then
      var r := TrimStart(s[1..]);
      assert s[..|s| - |r|] == [s[0]] + s[1..][..|s| - 1 - |r|];
      r
    else
      s
  }

  /** `s.rstrip()`: the longest prefix of `s` that does not end with whitespace. */
  function TrimEnd(s: string): (r: string)
    ensures |r| <= |s| && r == s[..|r|]
    ensures AllSpace(s[|r|..])
    ensures r != [] ==> !IsSpace(r[|r| - 1])
  {
    if s != [] && IsSpace(s[|s| - 1]) then
      var r := TrimEnd(s[..|s| - 1]);
      assert s[|r|..] == s[..|s| - 1][|r|..] + [s[|s| - 1]];
      r
    else
      s
  }

  /**
   * `s.strip()`: `s` is the result framed by whitespace on both sides, the
   * result has no whitespace at either end, and it is empty exactly when `s`
   * is all whitespace.
   */
  function Strip(s: string): (r: string)
    ensures |r| <= |s|
    ensures NoOuterSpace(r)
    ensures r == [] <==> AllSpace(s)
  {
    var t := TrimStart(s);
    var r := TrimEnd(t);
    assert s == s[..|s| - |t|] + t;
    r
  }

  /**
   * `s` is the stripped text framed by whitespace: `k` is the number of
   * leading whitespace characters removed.
   */
  lemma StripFramed(s: string) returns (k: nat)
    ensures k + |Strip(s)| <= |s|
    ensures s[k..k + |Strip(s)|] == Strip(s)
    ensures AllSpace(s[..k]) && AllSpace(s[k + |Strip(s)|..])
  {
    var t := TrimStart(s);
    var r := TrimEnd(t);
    assert r == Strip(s);
    k := |s| - |t|;
    SuffixSlices(s, k, |r|);
  }

  /** Slicing a suffix of `s` is slicing `s` further along. */
  lemma SuffixSlices(s: string, k: nat, m: nat)
    requires k + m <= |s|
    ensures s[k..][..m] == s[k..k + m] && s[k..][m..] == s[k + m..]
  {
  }

  /** Whitespace followed by text that does not start with whitespace: `lstrip` drops exactly the whitespace. */
  lemma {:induction false} TrimStartPadded(a: string, x: string)
    requires AllSpace(a)
    requires x == [] || !IsSpace(x[0])
    ensures TrimStart(a + x) == x
    decreases |a|
  {
    if a != [] {
      assert (a + x)[1..] == a[1..] + x;
      TrimStartPadded(a[1..], x);
    }
  }

  /** Text that does not end in whitespace followed by whitespace: `rstrip` drops exactly the whitespace. */
  lemma {:induction false} TrimEndPadded(x: string, b: string)
    requires AllSpace(b)
    requires x == [] || !IsSpace(x[|x| - 1])
    ensures TrimEnd(x + b) == x
    decreases |b|
  {
    if b == [] {
      assert x + b == x;
    } else {
      var last := |b| - 1;
      assert (x + b)[..|x + b| - 1] == x + b[..last];
      TrimEndPadded(x, b[..last]);
    }
  }

  /**
   * `strip` is characterised independently of how it is computed: whatever
   * whitespace surrounds a text with no outer whitespace, stripping gives back
   * exactly that text.
   */
  lemma StripUnique(a: string, r: string, b: string)
    requires AllSpace(a) && AllSpace(b) && NoOuterSpace(r)
    ensures Strip(a + r + b) == r
  {
    if r == [] {
      assert AllSpace(a + r + b) by {
        forall i | 0 <= i < |a + r + b| ensures IsSpace((a + r + b)[i]) {
          if i >= |a| { assert (a + r + b)[i] == b[i - |a|]; }
        }
      }
    } else {
      assert a + r + b == a + (r + b);
      TrimStartPadded(a, r + b);
      TrimEndPadded(r, b);
    }
  }

  /** Stripping twice is the same as stripping once. */
  lemma StripIdempotent(s: string)
    ensures Strip(Strip(s)) == Strip(s)
  {
  }
}
