/**
 * String operations the route finder relies on, as the Python `str`
 * methods behave on them: `lower`, `startswith`, `endswith`, the `in`
 * substring test and the two `split` idioms of the video-id extraction.
 */
module Text {
  import opened Wrappers

  /** Lower-cases the ASCII letters A-Z and keeps every other character. */
  function LowerChar(c: char): char
  {
    if 'A' <= c <= 'Z' then (c as int - 'A' as int + 'a' as int) as char else c
  }

  function Lower(s: string): (r: string)
    ensures |r| == |s|
    ensures forall i :: 0 <= i < |s| ==> r[i] == LowerChar(s[i])
  {
    if s == [] then [] else [LowerChar(s[0])] + Lower(s[1..])
  }

  predicate StartsWith(s: string, prefix: string)
  {
    |prefix| <= |s| && s[..|prefix|] == prefix
  }

  predicate EndsWith(s: string, suffix: string)
  {
    |suffix| <= |s| && s[|s| - |suffix|..] == suffix
  }

  /** `pat` occurs in `s` starting at position `i`. */
  predicate OccursAt(s: string, pat: string, i: int)
  {
    0 <= i && i + |pat| <= |s| && s[i..i + |pat|] == pat
  }

  /** Python's `pat in s` for strings. */
  ghost predicate Contains(s: string, pat: string)
  {
    exists i :: OccursAt(s, pat, i)
  }

  /** Python's `s.find(pat)`: the first position where `pat` occurs, if any. */
  function IndexOf(s: string, pat: string): (r: Option<nat>)
    ensures r.Some? ==> OccursAt(s, pat, r.value)
    ensures r.Some? ==> forall j :: 0 <= j < r.value ==> !OccursAt(s, pat, j)
    ensures r.None? ==> forall j :: !OccursAt(s, pat, j)
    decreases |s|
  {
    if |s| < |pat| then None
    else if s[..|pat|] == pat then Some(0)
    else
      match IndexOf(s[1..], pat)
      case None =>
        assert forall j :: OccursAt(s, pat, j) ==> j == 0 || OccursAt(s[1..], pat, j - 1) by {
          forall j | OccursAt(s, pat, j) && j != 0 ensures OccursAt(s[1..], pat, j - 1) {
            assert s[1..][j - 1..j - 1 + |pat|] == s[j..j + |pat|];
          }
        }
        None
      case Some(k) =>
        assert s[1..][k..k + |pat|] == s[k + 1..k + 1 + |pat|];
        assert forall j :: 0 < j < k + 1 ==> !OccursAt(s, pat, j) by {
          forall j | 0 < j < k + 1 && OccursAt(s, pat, j) ensures false {
            assert s[1..][j - 1..j - 1 + |pat|] == s[j..j + |pat|];
            assert OccursAt(s[1..], pat, j - 1);
          }
        }
        Some(k + 1)
  }

  /** The test behind Python's `pat in s`. */
  function Includes(s: string, pat: string): (b: bool)
    ensures b <==> Contains(s, pat)
  {
    IndexOf(s, pat).Some?
  }

  /**
   * Python's `s.split(sep)[-1]` for a non-empty separator: the split scans
   * left to right for non-overlapping occurrences, so the last piece is what
   * follows the last occurrence that scan finds.
   */
  function LastPiece(s: string, sep: string): (r: string)
    requires |sep| > 0
    ensures |r| <= |s|
    decreases |s|
  {
    match IndexOf(s, sep)
    case None => s
    case Some(i) => LastPiece(s[i + |sep|..], sep)
  }

  /** Python's `s.split(sep)[0]`: everything before the first occurrence of `sep`. */
  function FirstPiece(s: string, sep: string): (r: string)
    requires |sep| > 0
  {
    match IndexOf(s, sep)
    case None => s
    case Some(i) => s[..i]
  }

  /** The last piece is a suffix of `s` and holds no occurrence of `sep`. */
  lemma {:induction false} LastPieceIsFreeSuffix(s: string, sep: string)
    requires |sep| > 0
    ensures EndsWith(s, LastPiece(s, sep))
    ensures forall j :: !OccursAt(LastPiece(s, sep), sep, j)
    decreases |s|
  {
    if IndexOf(s, sep).None? {
      LastPieceWhole(s, sep);
    } else {
      var t := s[IndexOf(s, sep).value + |sep|..];
      LastPieceStep(s, sep);
      LastPieceIsFreeSuffix(t, sep);
      var r := LastPiece(t, sep);
      assert s[|s| - |r|..] == t[|t| - |r|..];
    }
  }

  /** When `sep` occurs in `s`, the text ends with `sep` followed by the last piece. */
  lemma {:induction false} LastPieceFollowsSeparator(s: string, sep: string)
    requires |sep| > 0
    requires IndexOf(s, sep).Some?
    ensures EndsWith(s, sep + LastPiece(s, sep))
    decreases |s|
  {
    var t := s[IndexOf(s, sep).value + |sep|..];
    LastPieceStep(s, sep);
    if IndexOf(t, sep).Some? {
      LastPieceFollowsSeparator(t, sep);
      SuffixOfSuffix(s, IndexOf(s, sep).value + |sep|, sep + LastPiece(t, sep));
    } else {
      LastPieceWhole(t, sep);
      SeparatorThenRest(s, sep, IndexOf(s, sep).value);
    }
  }

  /** A suffix occurs where it starts. */
  lemma SuffixOccurs(s: string, x: string)
    requires EndsWith(s, x)
    ensures OccursAt(s, x, |s| - |x|)
  {
    assert s[|s| - |x|..|s|] == s[|s| - |x|..];
  }

  /** An occurrence of `sep` followed by everything after it ends the text. */
  lemma SeparatorThenRest(s: string, sep: string, i: int)
    requires OccursAt(s, sep, i)
    ensures EndsWith(s, sep + s[i + |sep|..])
  {
    assert s[i..] == s[i..i + |sep|] + s[i + |sep|..];
  }

  /** A suffix of a suffix of `s` is a suffix of `s`. */
  lemma SuffixOfSuffix(s: string, offset: nat, x: string)
    requires offset <= |s| && EndsWith(s[offset..], x)
    ensures EndsWith(s, x)
  {
    assert s[|s| - |x|..] == s[offset..][|s| - offset - |x|..];
  }

  /** Past the first occurrence, the last piece is the last piece of the rest. */
  lemma LastPieceStep(s: string, sep: string)
    requires |sep| > 0
    requires IndexOf(s, sep).Some?
    ensures IndexOf(s, sep).value + |sep| <= |s|
    ensures LastPiece(s, sep) == LastPiece(s[IndexOf(s, sep).value + |sep|..], sep)
  {
  }

  /** Without an occurrence the last piece is the whole text. */
  lemma LastPieceWhole(s: string, sep: string)
    requires |sep| > 0
    requires IndexOf(s, sep).None?
    ensures LastPiece(s, sep) == s
  {
  }

  /** The first piece is a prefix of `s` free of `sep`, and it is all of `s` or is followed by `sep`. */
  lemma FirstPieceSpec(s: string, sep: string)
    requires |sep| > 0
    ensures StartsWith(s, FirstPiece(s, sep))
    ensures forall j :: !OccursAt(FirstPiece(s, sep), sep, j)
    ensures FirstPiece(s, sep) == s || OccursAt(s, sep, |FirstPiece(s, sep)|)
  {
    match IndexOf(s, sep)
    case None =>
    case Some(i) =>
      forall j | OccursAt(s[..i], sep, j) ensures false {
        assert s[..i][j..j + |sep|] == s[j..j + |sep|];
        assert OccursAt(s, sep, j);
      }
  }

  /** Python's `a <= b` on strings: lexicographic by code point. */
  predicate LexLessEq(a: string, b: string)
    decreases |a|
  {
    |a| == 0 || (|b| > 0 && (a[0] < b[0] || (a[0] == b[0] && LexLessEq(a[1..], b[1..]))))
  }

  /** Any two strings compare. */
  lemma {:induction false} LexTotal(a: string, b: string)
    ensures LexLessEq(a, b) || LexLessEq(b, a)
    decreases |a|
  {
    if |a| > 0 && |b| > 0 && a[0] == b[0] {
      LexTotal(a[1..], b[1..]);
    }
  }

  /** Comparisons chain. */
  lemma {:induction false} LexTransitive(a: string, b: string, c: string)
    requires LexLessEq(a, b) && LexLessEq(b, c)
    ensures LexLessEq(a, c)
    decreases |a|
  {
    if |a| > 0 && a[0] == b[0] && b[0] == c[0] {
      LexTransitive(a[1..], b[1..], c[1..]);
    }
  }
}
