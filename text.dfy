/** The string operations the pages use: `startsWith` and the pieces of `split`. */
module Text {

  /** `s.startsWith(prefix)`. */
  predicate StartsWith(s: string, prefix: string)
  {
    |prefix| <= |s| && s[..|prefix|] == prefix
  }

  lemma ConcatStartsWith(a: string, b: string)
    ensures StartsWith(a + b, a)
  {
    assert (a + b)[..|a|] == a;
  }

  /**
   * `s.split(sep)[0]`: the longest prefix of `s` without `sep`; it is either
   * all of `s` or is followed in `s` by a `sep`.
   */
  function FirstSegment(s: string, sep: char): (r: string)
    ensures sep !in r
    ensures StartsWith(s, r)
    ensures r == s || (|r| < |s| && s[|r|] == sep)
  {
    if s == [] || s[0] == sep then []
    else [s[0]] + FirstSegment(s[1..], sep)
  }

  /**
   * `s.split(sep).pop()`: the longest suffix of `s` without `sep` (`split`
   * always returns at least one piece, so `pop` never yields `undefined`);
   * it is either all of `s` or is preceded in `s` by a `sep`.
   */
  function LastSegment(s: string, sep: char): (r: string)
    ensures sep !in r
    ensures |r| <= |s| && s[|s| - |r|..] == r
    ensures r == s || s[|s| - |r| - 1] == sep
  {
    if s == [] || s[|s| - 1] == sep then []
    else LastSegment(s[..|s| - 1], sep) + [s[|s| - 1]]
  }

  /** A string without `sep` is its own first segment. */
  lemma {:induction false} FirstSegmentOfSepFree(s: string, rest: string, sep: char)
    requires sep !in s
    ensures FirstSegment(s, sep) == s
    ensures FirstSegment(s + [sep] + rest, sep) == s
  {
    if s != [] {
      assert (s + [sep] + rest)[1..] == s[1..] + [sep] + rest;
      FirstSegmentOfSepFree(s[1..], rest, sep);
    } else {
      assert (s + [sep] + rest)[0] == sep;
    }
  }

  /** Whatever precedes the last `sep` does not matter to the last segment. */
  lemma {:induction false} LastSegmentAfterSep(front: string, s: string, sep: char)
    requires sep !in s
    ensures LastSegment(front + [sep] + s, sep) == s
  {
    var whole := front + [sep] + s;
    if s == [] {
      assert whole[|whole| - 1] == sep;
    } else {
      assert whole[..|whole| - 1] == front + [sep] + s[..|s| - 1];
      LastSegmentAfterSep(front, s[..|s| - 1], sep);
      assert s == s[..|s| - 1] + [s[|s| - 1]];
    }
  }
}
