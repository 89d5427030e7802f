/**
 * The `str` methods the core calls: `startswith`, `replace`, `split` and
 * the substring test `in`, with Python's left-to-right, non-overlapping
 * scanning.
 */
module PyStr {

  /** `s.startswith(p)` */
  predicate StartsWith(s: string, p: string) { |p| <= |s| && s[..|p|] == p }

  /** `p in s` for strings: `p` occurs as a contiguous substring of `s`. */
  predicate Contains(s: string, p: string) { exists i | 0 <= i <= |s| :: OccursAt(s, p, i) }

  predicate OccursAt(s: string, p: string, i: int) { 0 <= i && i + |p| <= |s| && s[i..i + |p|] == p }

  /**
   * `s.replace(pat, rep)` for a non-empty `pat`: scanning from the left,
   * each occurrence of `pat` is replaced by `rep` and scanning resumes after it.
   */
  function Replace(s: string, pat: string, rep: string): string
    requires |pat| > 0
    decreases |s|
  {
    if |s| < |pat| then s
    else if s[..|pat|] == pat then rep + Replace(s[|pat|..], pat, rep)
    else [s[0]] + Replace(s[1..], pat, rep)
  }

  /** Replacing one character by another keeps the length and maps every position. */
  lemma {:induction false} ReplaceChar(s: string, a: char, b: char)
    ensures |Replace(s, [a], [b])| == |s|
    ensures forall i :: 0 <= i < |s| ==> Replace(s, [a], [b])[i] == if s[i] == a then b else s[i]
    decreases |s|
  {
    if |s| > 0 {
      ReplaceChar(s[1..], a, b);
      assert s[..1] == [s[0]];
    }
  }

  /** A string in which `pat` never occurs is left unchanged by `replace`. */
  lemma {:induction false} ReplaceAbsent(s: string, pat: string, rep: string)
    requires |pat| > 0
    requires !Contains(s, pat)
    ensures Replace(s, pat, rep) == s
    decreases |s|
  {
    if |s| >= |pat| {
      assert !OccursAt(s, pat, 0);
      assert s[0..|pat|] == s[..|pat|];
      assert !Contains(s[1..], pat) by {
        forall i | OccursAt(s[1..], pat, i)
          ensures false
        {
          assert s[1..][i..i + |pat|] == s[i + 1..i + 1 + |pat|];
          assert OccursAt(s, pat, i + 1);
        }
      }
      ReplaceAbsent(s[1..], pat, rep);
    }
  }

  /** Replacing by the empty string never makes a string longer. */
  lemma {:induction false} ReplaceByEmptyShrinks(s: string, pat: string)
    requires |pat| > 0
    ensures |Replace(s, pat, "")| <= |s|
    decreases |s|
  {
    if |s| >= |pat| {
      if s[..|pat|] == pat {
        ReplaceByEmptyShrinks(s[|pat|..], pat);
      } else {
        ReplaceByEmptyShrinks(s[1..], pat);
      }
    }
  }

  /**
   * `s.split(sep)` for a one-character separator: the pieces between the
   * separators, always at least one (`"".split(":") == [""]`).
   */
  function Split(s: string, sep: char): (parts: seq<string>)
    ensures |parts| > 0
    ensures forall i :: 0 <= i < |parts| ==> sep !in parts[i]
    decreases |s|
  {
    if s == [] then [[]]
    else
      var tail := Split(s[1..], sep);
      if s[0] == sep then [[]] + tail
      else [[s[0]] + tail[0]] + tail[1..]
  }

  /** Splitting `a + [sep] + b` where neither piece holds the separator yields exactly the two pieces. */
  lemma {:induction false} SplitPair(a: string, b: string, sep: char)
    requires sep !in a && sep !in b
    ensures Split(a + [sep] + b, sep) == [a, b]
    decreases |a|
  {
    if a == [] {
      assert [sep] + b == a + [sep] + b;
      SplitNone(b, sep);
      assert ([sep] + b)[1..] == b;
    } else {
      SplitPair(a[1..], b, sep);
      assert (a + [sep] + b)[1..] == a[1..] + [sep] + b;
      assert [a[0]] + a[1..] == a;
    }
  }

  /** A string without the separator splits into itself. */
  lemma {:induction false} SplitNone(s: string, sep: char)
    requires sep !in s
    ensures Split(s, sep) == [s]
    decreases |s|
  {
    if s != [] {
      SplitNone(s[1..], sep);
      assert [s[0]] + s[1..] == s;
    }
  }

  /** A string in which no two adjacent characters are both `c` does not contain `[c, c]`. */
  lemma NoDoubledChar(s: string, c: char)
    requires forall i :: 0 <= i < |s| - 1 ==> s[i] != c || s[i + 1] != c
    ensures !Contains(s, [c, c])
  {
    forall i | 0 <= i <= |s| - 2
      ensures !OccursAt(s, [c, c], i)
    {
      assert s[i..i + 2] == [s[i], s[i + 1]];
    }
  }
}
