/**
 * The few JavaScript string operations the model relies on, with the
 * semantics of `String.prototype.indexOf`, `slice`, `split` and of the
 * number-to-string coercion that turns a numeric key into an object key.
 */
module JsStrings {

  /** JavaScript truthiness of a string: only the empty string is falsy. */
  predicate Truthy(s: string) {
    s != ""
  }

  /** `pat` occurs in `s` starting at position `i`. */
  predicate OccursAt(s: string, pat: string, i: int) {
    0 <= i && i + |pat| <= |s| && s[i..i + |pat|] == pat
  }

  function IndexOfFrom(s: string, pat: string, from: nat): (r: int)
    requires from <= |s|
    ensures r == -1 || (from <= r <= |s| && OccursAt(s, pat, r))
    ensures forall j {:trigger OccursAt(s, pat, j)} :: from <= j && (r == -1 || j < r) ==> !OccursAt(s, pat, j)
    decreases |s| - from
  {
    if OccursAt(s, pat, from) then from
    else if from == |s| then -1
    else IndexOfFrom(s, pat, from + 1)
  }

  /** `s.indexOf(pat)`: the first position where `pat` occurs, or -1 when it does not occur. */
  function IndexOf(s: string, pat: string): (r: int)
    ensures r == -1 <==> forall j {:trigger OccursAt(s, pat, j)} :: !OccursAt(s, pat, j)
    ensures r != -1 ==> OccursAt(s, pat, r)
    ensures forall j {:trigger OccursAt(s, pat, j)} :: 0 <= j < r ==> !OccursAt(s, pat, j)
  {
    IndexOfFrom(s, pat, 0)
  }

  /** `s.indexOf(pat) === 0` holds exactly when `s` starts with `pat`. */
  lemma IndexOfZero(s: string, pat: string)
    ensures IndexOf(s, pat) == 0 <==> |pat| <= |s| && s[..|pat|] == pat
  {
    assert OccursAt(s, pat, 0) <==> |pat| <= |s| && s[..|pat|] == pat;
  }

  /** `s.replace(pat, rep)` with a plain-string pattern: only the first occurrence is replaced. */
  function ReplaceFirst(s: string, pat: string, rep: string): string {
    var k := IndexOf(s, pat);
    if k == -1 then s else s[..k] + rep + s[k + |pat|..]
  }

  /**
   * `s.slice(0, end)`: a negative `end` counts back from the end of the
   * string, and the result is clamped to the string.
   */
  function SliceTo(s: string, end: int): (r: string)
    ensures |r| <= |s| && r == s[..|r|]
    ensures 0 <= end <= |s| ==> |r| == end
    ensures -|s| <= end < 0 ==> |r| == |s| + end
  {
    if end < 0 then (if |s| + end < 0 then "" else s[..|s| + end])
    else if end > |s| then s
    else s[..end]
  }

  /** The inverse of `split`: the parts glued with `sep`. */
  function JoinWith(parts: seq<string>, sep: char): string
    requires |parts| >= 1
  {
    if |parts| == 1 then parts[0] else parts[0] + [sep] + JoinWith(parts[1..], sep)
  }

  /** `s.split(sep)` for a one-character separator: never empty, `""` gives `[""]`. */
  function Split(s: string, sep: char): (parts: seq<string>)
    ensures |parts| >= 1
    ensures forall k :: 0 <= k < |parts| ==> sep !in parts[k]
    ensures JoinWith(parts, sep) == s
    decreases |s|
  {
    if |s| == 0 then [""]
    else
      var rest := Split(s[1..], sep);
      if s[0] == sep then
        assert s == [sep] + s[1..];
        [""] + rest
      else
        var parts := [[s[0]] + rest[0]] + rest[1..];
        assert JoinWith(parts, sep) == s by {
          if |rest| == 1 {
            assert s == [s[0]] + s[1..];
          } else {
            assert parts[1..] == rest[1..];
            calc {
              JoinWith(parts, sep);
              ([s[0]] + rest[0]) + [sep] + JoinWith(rest[1..], sep);
              [s[0]] + (rest[0] + [sep] + JoinWith(rest[1..], sep));
              [s[0]] + JoinWith(rest, sep);
              s;
            }
          }
        }
        parts
  }

  lemma {:induction false} SplitNoSeparator(s: string, sep: char)
    requires sep !in s
    ensures Split(s, sep) == [s]
    decreases |s|
  {
    if |s| > 0 {
      SplitNoSeparator(s[1..], sep);
      assert [s[0]] + s[1..] == s;
    }
  }

  lemma {:induction false} SplitAfterPart(x: string, sep: char, y: string)
    requires sep !in x
    ensures Split(x + [sep] + y, sep) == [x] + Split(y, sep)
    decreases |x|
  {
    if |x| == 0 {
      assert x + [sep] + y == [sep] + y;
      assert ([sep] + y)[1..] == y;
    } else {
      SplitAfterPart(x[1..], sep, y);
      var s := x + [sep] + y;
      assert s[0] == x[0] && s[1..] == x[1..] + [sep] + y;
      assert [x[0]] + x[1..] == x;
    }
  }

  /** Splitting undoes joining when no part contains the separator. */
  lemma {:induction false} SplitJoin(parts: seq<string>, sep: char)
    requires |parts| >= 1
    requires forall k :: 0 <= k < |parts| ==> sep !in parts[k]
    ensures Split(JoinWith(parts, sep), sep) == parts
    decreases |parts|
  {
    if |parts| == 1 {
      SplitNoSeparator(parts[0], sep);
    } else {
      SplitJoin(parts[1..], sep);
      SplitAfterPart(parts[0], sep, JoinWith(parts[1..], sep));
      assert [parts[0]] + parts[1..] == parts;
    }
  }

  /** Every character of a part occurs in the joined string. */
  lemma {:induction false} JoinWithContains(parts: seq<string>, sep: char, k: nat, c: char)
    requires |parts| >= 1 && k < |parts| && c in parts[k]
    ensures c in JoinWith(parts, sep)
    decreases |parts|
  {
    if k > 0 {
      JoinWithContains(parts[1..], sep, k - 1, c);
    }
  }

  function Digit(d: nat): (c: char)
    requires d < 10
    ensures c as int == '0' as int + d
  {
    ('0' as int + d) as char
  }

  /** The decimal spelling JavaScript gives a non-negative integer used as an object key. */
  function NumberToString(n: nat): (s: string)
    ensures 1 <= |s|
    ensures n < 10 <==> |s| == 1
    ensures s[|s| - 1] == Digit(n % 10)
    decreases n
  {
    if n < 10 then [Digit(n)] else NumberToString(n / 10) + [Digit(n % 10)]
  }

  /** Distinct numbers give distinct keys. */
  lemma {:induction false} NumberToStringInjective(a: nat, b: nat)
    requires NumberToString(a) == NumberToString(b)
    ensures a == b
    decreases a
  {
    var sa, sb := NumberToString(a), NumberToString(b);
    assert a % 10 == b % 10 by {
      assert Digit(a % 10) == Digit(b % 10);
    }
    if a >= 10 && b >= 10 {
      assert sa[..|sa| - 1] == NumberToString(a / 10);
      assert sb[..|sb| - 1] == NumberToString(b / 10);
      NumberToStringInjective(a / 10, b / 10);
    }
  }
}
