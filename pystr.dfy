/**
 * Python's `str.strip()` with no argument: it removes leading and trailing
 * characters for which `str.isspace()` holds.
 */
module PyStr {

  /** The characters `str.isspace()` accepts: U+0009-U+000D, U+001C-U+001F, the space,
      U+0085, U+00A0, U+1680, U+2000-U+200A, U+2028, U+2029, U+202F, U+205F, U+3000. */
  predicate IsSpace(c: char) {
    || ('\t' <= c <= '\r')
    || ('\U{1C}' <= c <= '\U{1F}')
    || c == ' '
    || c == '\U{85}'
    || c == '\U{A0}'
    || c == '\U{1680}'
    || ('\U{2000}' <= c <= '\U{200A}')
    || c == '\U{2028}'
    || c == '\U{2029}'
    || c == '\U{202F}'
    || c == '\U{205F}'
    || c == '\U{3000}'
  }

  /** Every character of `s` is whitespace (the empty string included). */
  predicate AllSpace(s: string) {
    forall i :: 0 <= i < |s| ==> IsSpace(s[i])
  }

  /** `s.lstrip()`: `s` without its leading whitespace. */
  function LStrip(s: string): string
    decreases |s|
  {
    if s != [] && IsSpace(s[0]) then LStrip(s[1..]) else s
  }

  /** `s.rstrip()`: `s` without its trailing whitespace. */
  function RStrip(s: string): string
    decreases |s|
  {
    if s != [] && IsSpace(s[|s| - 1]) then RStrip(s[..|s| - 1]) else s
  }

  /** `LStrip(s)` is the suffix of `s` left after a run of whitespace, and starts (if at all)
      with a non-space. */
  lemma {:induction false} LStripSuffix(s: string)
    ensures var r := LStrip(s);
      && |r| <= |s| && r == s[|s| - |r|..]
      && AllSpace(s[..|s| - |r|])
      && (r != [] ==> !IsSpace(r[0]))
    decreases |s|
  {
    if s != [] && IsSpace(s[0]) {
      LStripSuffix(s[1..]);
      var r := LStrip(s[1..]);
      var t := s[1..];
      assert t[..|s| - 1 - |r|] == s[1..|s| - |r|];
      forall i | 0 <= i < |s| - |r| ensures IsSpace(s[i]) {
        if i > 0 { assert s[i] == t[..|s| - 1 - |r|][i - 1]; }
      }
    }
  }

  /** `RStrip(s)` is the prefix of `s` left before a run of whitespace, and ends (if at all)
      with a non-space. */
  lemma {:induction false} RStripPrefix(s: string)
    ensures var r := RStrip(s);
      && |r| <= |s| && r == s[..|r|]
      && AllSpace(s[|r|..])
      && (r != [] ==> !IsSpace(r[|r| - 1]))
    decreases |s|
  {
    if s != [] && IsSpace(s[|s| - 1]) {
      RStripPrefix(s[..|s| - 1]);
      var r := RStrip(s[..|s| - 1]);
      var t := s[..|s| - 1];
      assert t[|r|..] == s[|r|..|s| - 1];
      forall i | |r| <= i < |s| ensures IsSpace(s[i]) {
        if i < |s| - 1 { assert s[i] == t[|r|..][i - |r|]; }
      }
    }
  }

  /** `s.strip()`. */
  function Strip(s: string): string {
    RStrip(LStrip(s))
  }

  /** `not s.strip()`: the test the create handler applies to `title` and `content`. */
  predicate IsBlank(s: string) {
    Strip(s) == []
  }

  /** The stripped string is a slice `s[lo..hi]` and only whitespace lies outside it. */
  lemma StripIsSlice(s: string)
    ensures var lo, r := |s| - |LStrip(s)|, Strip(s);
      && 0 <= lo && lo + |r| <= |s|
      && r == s[lo..lo + |r|]
      && AllSpace(s[..lo])
      && AllSpace(s[lo + |r|..])
  {
    LStripSuffix(s);
    RStripPrefix(LStrip(s));
    var l := LStrip(s);
    var lo, r := |s| - |l|, Strip(s);
    assert l == s[lo..];
    assert r == l[..|r|];
    assert AllSpace(l[|r|..]);
    assert l[|r|..] == s[lo + |r|..];
  }

  /** What is left after stripping neither starts nor ends with whitespace. */
  lemma StripTrimmed(s: string)
    ensures var r := Strip(s); r != [] ==> !IsSpace(r[0]) && !IsSpace(r[|r| - 1])
  {
    LStripSuffix(s);
    RStripPrefix(LStrip(s));
    var l := LStrip(s);
    var r := RStrip(l);
    if r != [] {
      assert r[0] == l[0];
    }
  }

  /** A string is blank exactly when every one of its characters is whitespace. */
  lemma BlankIffAllSpace(s: string)
    ensures IsBlank(s) <==> AllSpace(s)
  {
    LStripSuffix(s);
    RStripPrefix(LStrip(s));
    var l := LStrip(s);
    var lo := |s| - |l|;
    assert s == s[..lo] + l;
    if IsBlank(s) {
      assert AllSpace(l[0..]);
      assert l == [];
    } else {
      StripIsSlice(s);
      StripTrimmed(s);
      var r := Strip(s);
      assert s[lo] == r[0];
    }
  }

  /** Stripping twice is stripping once: a stored title is already stripped. */
  lemma StripIdempotent(s: string)
    ensures Strip(Strip(s)) == Strip(s)
  {
    var r := Strip(s);
    StripTrimmed(s);
    assert LStrip(r) == r;
    assert RStrip(r) == r;
  }
}
