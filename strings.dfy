/**
 * The three `String` operations the core relies on: substring search
 * (`contains(_:)`), `replacingOccurrences(of:with:)` and `joined(separator:)`,
 * plus `components(separatedBy:)` as the inverse of joining.
 * Strings are sequences of characters.
 */
module Strings {

  /** `p` is a prefix of `s`. */
  predicate StartsWith(s: string, p: string) {
    |p| <= |s| && s[..|p|] == p
  }

  /** `p` occurs in `s` starting at index `i`. */
  predicate OccursAt(s: string, p: string, i: int) {
    0 <= i && i + |p| <= |s| && s[i..i + |p|] == p
  }

  /** `s.contains(p)`: `p` occurs somewhere in `s`. */
  predicate Contains(s: string, p: string)
    ensures Contains(s, p) ==> |p| <= |s|
    ensures StartsWith(s, p) ==> Contains(s, p)
  {
    assert StartsWith(s, p) ==> OccursAt(s, p, 0);
    exists i | 0 <= i <= |s| - |p| :: OccursAt(s, p, i)
  }

  /** Whatever surrounds it, a string contains each of its infixes. */
  lemma ContainsInfix(a: string, p: string, b: string)
    ensures Contains(a + p + b, p)
  {
    assert OccursAt(a + p + b, p, |a|);
  }

  /** An occurrence in the tail of a string is an occurrence in the string. */
  lemma ContainsTail(s: string, p: string)
    requires |s| > 0 && Contains(s[1..], p)
    ensures Contains(s, p)
  {
    var i :| 0 <= i <= |s| - 1 - |p| && OccursAt(s[1..], p, i);
    assert s[1..][i..i + |p|] == s[i + 1..i + 1 + |p|];
    assert OccursAt(s, p, i + 1);
  }

  /** An occurrence past the end of `x` in `x + y` is an occurrence in `y`. */
  lemma OccursInSuffix(x: string, y: string, p: string, i: int)
    requires i >= |x|
    ensures OccursAt(x + y, p, i) ==> OccursAt(y, p, i - |x|)
  {
    if OccursAt(x + y, p, i) {
      assert (x + y)[i..i + |p|] == y[i - |x|..i - |x| + |p|];
    }
  }

  /**
   * `s.replacingOccurrences(of: pat, with: rep)`: scanning from the left,
   * every occurrence of `pat` that does not overlap an earlier replaced one
   * becomes `rep`.
   */
  function ReplaceAll(s: string, pat: string, rep: string): (r: string)
    requires pat != []
    ensures StartsWith(s, pat) ==> StartsWith(r, rep)
    decreases |s|
  {
    if |s| == 0 then []
    else if StartsWith(s, pat) then rep + ReplaceAll(s[|pat|..], pat, rep)
    else [s[0]] + ReplaceAll(s[1..], pat, rep)
  }

  /** A string in which `pat` does not occur is left as it is. */
  lemma {:induction false} ReplaceAllAbsent(s: string, pat: string, rep: string)
    requires pat != [] && !Contains(s, pat)
    ensures ReplaceAll(s, pat, rep) == s
    decreases |s|
  {
    if |s| > 0 {
      assert !StartsWith(s, pat) by {
        assert !OccursAt(s, pat, 0);
      }
      if Contains(s[1..], pat) { ContainsTail(s, pat); }
      ReplaceAllAbsent(s[1..], pat, rep);
    }
  }

  /** An occurrence at the front becomes `rep`; the pattern-free rest is kept. */
  lemma ReplaceLeading(t: string, pat: string, rep: string)
    requires pat != [] && !Contains(t, pat)
    ensures ReplaceAll(pat + t, pat, rep) == rep + t
  {
    assert StartsWith(pat + t, pat);
    assert (pat + t)[|pat|..] == t;
    ReplaceAllAbsent(t, pat, rep);
  }

  /** Occurrences in the tail of `s` are those in `s`, one place further on. */
  lemma OccursInTail(s: string, pat: string, j: nat)
    requires |s| > 0
    ensures OccursAt(s[1..], pat, j) <==> OccursAt(s, pat, j + 1)
  {
    if j + |pat| <= |s| - 1 {
      assert s[1..][j..j + |pat|] == s[j + 1..j + 1 + |pat|];
    }
  }

  /**
   * The first occurrence of `pat`, wherever it is, becomes `rep`: what comes
   * before it is kept, and what comes after it is rewritten in turn.
   */
  lemma {:induction false} ReplaceFirst(s: string, pat: string, rep: string, i: nat)
    requires pat != [] && OccursAt(s, pat, i)
    requires forall j | 0 <= j < i :: !OccursAt(s, pat, j)
    ensures ReplaceAll(s, pat, rep) == s[..i] + rep + ReplaceAll(s[i + |pat|..], pat, rep)
    decreases i
  {
    if i == 0 {
      assert StartsWith(s, pat);
    } else {
      assert !StartsWith(s, pat) by {
        assert !OccursAt(s, pat, 0);
      }
      var t := s[1..];
      var rest := ReplaceAll(s[i + |pat|..], pat, rep);
      OccursInTail(s, pat, i - 1);
      forall j | 0 <= j < i - 1
        ensures !OccursAt(t, pat, j)
      {
        OccursInTail(s, pat, j);
      }
      ReplaceFirst(t, pat, rep, i - 1);
      assert t[i - 1 + |pat|..] == s[i + |pat|..];
      assert ReplaceAll(t, pat, rep) == t[..i - 1] + rep + rest;
      assert [s[0]] + t[..i - 1] == s[..i];
      calc {
        ReplaceAll(s, pat, rep);
        [s[0]] + ReplaceAll(t, pat, rep);
        [s[0]] + (t[..i - 1] + rep + rest);
        ([s[0]] + t[..i - 1]) + rep + rest;
      }
    }
  }

  /** `items.joined(separator: sep)`: the separator goes only between items. */
  function Join(items: seq<string>, sep: string): (r: string)
    ensures |items| >= 1 ==> StartsWith(r, items[0])
    decreases |items|
  {
    if |items| == 0 then ""
    else if |items| == 1 then items[0]
    else items[0] + sep + Join(items[1..], sep)
  }

  /** Sum of the lengths of `items`. */
  function TotalLength(items: seq<string>): nat
    decreases |items|
  {
    if |items| == 0 then 0 else |items[0]| + TotalLength(items[1..])
  }

  /** Joining nothing gives the empty string, joining one item gives that item. */
  lemma JoinShort(items: seq<string>, sep: string)
    requires |items| <= 1
    ensures Join(items, sep) == if |items| == 0 then "" else items[0]
  {
  }

  /** Joining n >= 1 items adds n - 1 separators to the items' own characters. */
  lemma {:induction false} JoinLength(items: seq<string>, sep: string)
    requires |items| >= 1
    ensures |Join(items, sep)| == TotalLength(items) + |sep| * (|items| - 1)
    decreases |items|
  {
    if |items| > 1 {
      JoinLength(items[1..], sep);
      assert |sep| * (|items| - 1) == |sep| + |sep| * (|items| - 2);
    }
  }

  /**
   * `s.components(separatedBy: sep)`: the pieces between occurrences of
   * `sep`, found from the left; never empty (the empty string gives `[""]`).
   */
  function Split(s: string, sep: string): (parts: seq<string>)
    requires sep != []
    ensures |parts| >= 1
    decreases |s|
  {
    if |s| == 0 then [""]
    else if StartsWith(s, sep) then [""] + Split(s[|sep|..], sep)
    else
      var rest := Split(s[1..], sep);
      [[s[0]] + rest[0]] + rest[1..]
  }
}
