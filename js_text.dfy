/** The JavaScript string primitives the service relies on, with JavaScript's own
    edge cases: `indexOf`/`lastIndexOf` answer -1 when nothing is found,
    `substring` clamps and swaps its bounds, `split` always yields at least one
    part, `trim` and `parseInt` skip the ECMAScript white-space set, `parseInt`
    reads only a leading run of digits (and a "0x" prefix when no radix is
    given), and the case-insensitive regular-expression comparison folds ASCII
    letters only. Strings are sequences of Unicode scalar values. */
module JsText {

  datatype Option<+T> = None | Some(value: T)

  datatype Result<+T, +E> = Ok(value: T) | Err(error: E)

  /** A settled promise that carries no value: resolved, or rejected with the
      text of its error. */
  datatype Outcome = Pass | Fail(error: string)

  // ---------------------------------------------------------------------------
  // Character classes

  predicate IsDigit(c: char) { '0' <= c <= '9' }

  predicate IsHexDigit(c: char) { IsDigit(c) || 'a' <= c <= 'f' || 'A' <= c <= 'F' }

  /** ECMAScript WhiteSpace and LineTerminator code points: what `\s`, `trim`
      and `parseInt` treat as white space. */
  predicate IsJsSpace(c: char) {
    c == '\t' || c == '\n' || c == '\U{000B}' || c == '\U{000C}' || c == '\r' || c == ' '
    || c == '\U{00A0}' || c == '\U{1680}' || ('\U{2000}' <= c <= '\U{200A}')
    || c == '\U{2028}' || c == '\U{2029}' || c == '\U{202F}' || c == '\U{205F}'
    || c == '\U{3000}' || c == '\U{FEFF}'
  }

  /** The characters a regular-expression `.` does not match. */
  predicate IsLineTerminator(c: char) {
    c == '\n' || c == '\r' || c == '\U{2028}' || c == '\U{2029}'
  }

  /** Case folding of a non-unicode `/i` regular expression, restricted to what
      matters against ASCII patterns: a character at or above U+0080 never folds
      onto an ASCII one, so only 'a'..'z' change. */
  function AsciiUpper(c: char): (u: char)
    ensures IsDigit(u) <==> IsDigit(c)
    ensures c == u || ('a' <= c <= 'z' && u as int == c as int - 32)
  {
    if 'a' <= c <= 'z' then (c as int - 32) as char else c
  }

  predicate CharEqCI(c: char, p: char) { AsciiUpper(c) == AsciiUpper(p) }

  // ---------------------------------------------------------------------------
  // Prefixes and occurrences

  predicate StartsWith(s: string, p: string) { |p| <= |s| && s[..|p|] == p }

  lemma StartsWithPrefix(p: string, rest: string)
    ensures StartsWith(p + rest, p)
  {
    assert (p + rest)[..|p|] == p;
  }

  predicate StartsWithCI(s: string, p: string) {
    |p| <= |s| && forall i :: 0 <= i < |p| ==> CharEqCI(s[i], p[i])
  }

  /** `p` occurs in `s` at position `i`. */
  predicate OccursAt(s: string, p: string, i: int) {
    0 <= i <= |s| && StartsWith(s[i..], p)
  }

  /** `s.includes(p)`: some position of `s` starts an occurrence of `p`. */
  predicate Contains(s: string, p: string) {
    exists i :: 0 <= i <= |s| && OccursAt(s, p, i)
  }

  lemma ContainsInfix(a: string, p: string, b: string)
    ensures Contains(a + p + b, p)
  {
    var s := a + p + b;
    assert s[|a|..][..|p|] == p;
    assert OccursAt(s, p, |a|);
  }

  lemma ContainsSelf(s: string)
    ensures Contains(s, s)
  {
    assert s[0..][..|s|] == s;
    assert OccursAt(s, s, 0);
  }

  lemma ContainsExtends(s: string, p: string, t: string)
    requires Contains(s, p)
    ensures Contains(s + t, p)
  {
    var i :| 0 <= i <= |s| && OccursAt(s, p, i);
    assert (s + t)[i..][..|p|] == s[i..][..|p|];
    assert OccursAt(s + t, p, i);
  }

  lemma ContainsAfter(x: string, s: string, p: string)
    requires Contains(s, p)
    ensures Contains(x + s, p)
  {
    var i :| 0 <= i <= |s| && OccursAt(s, p, i);
    assert (x + s)[|x| + i..] == s[i..];
    assert OccursAt(x + s, p, |x| + i);
  }

  lemma ContainsWithin(x: string, s: string, y: string, p: string)
    requires Contains(s, p)
    ensures Contains(x + s + y, p)
  {
    var i :| 0 <= i <= |s| && OccursAt(s, p, i);
    assert (x + s)[|x| + i..] == s[i..];
    assert OccursAt(x + s, p, |x| + i);
    ContainsExtends(x + s, p, y);
  }

  /** An occurrence of `p` in `s + t` lies within `s` when `t` lacks the last
      character of `p`. */
  lemma ContainsEndingBefore(s: string, t: string, p: string)
    requires p != [] && p[|p| - 1] !in t && Contains(s + t, p)
    ensures Contains(s, p)
  {
    var i :| 0 <= i <= |s + t| && OccursAt(s + t, p, i);
    var j := i + |p| - 1;
    assert (s + t)[j] == (s + t)[i..][..|p|][|p| - 1] == p[|p| - 1];
    if j >= |s| {
      assert false;
    }
    assert s[i..][..|p|] == (s + t)[i..][..|p|];
    assert OccursAt(s, p, i);
  }

  /** `s.indexOf(p)`: the first position where `p` occurs, -1 when it does not. */
  function IndexOf(s: string, p: string): (r: int)
    ensures r == -1 <==> forall i :: !OccursAt(s, p, i)
    ensures r != -1 ==> r <= |s| - |p| && OccursAt(s, p, r)
    ensures r != -1 ==> forall i :: 0 <= i < r ==> !OccursAt(s, p, i)
    decreases |s|
  {
    if StartsWith(s, p) then
      assert s[0..] == s;
      assert OccursAt(s, p, 0);
      0
    else if s == [] then
      -1
    else
      var k := IndexOf(s[1..], p);
      assert forall i :: 1 <= i <= |s| ==> s[i..] == s[1..][i - 1..];
      assert s[0..] == s;
      assert forall i :: OccursAt(s, p, i) ==> i == 0 || OccursAt(s[1..], p, i - 1) by {
        forall i | OccursAt(s, p, i) && i != 0 ensures OccursAt(s[1..], p, i - 1) {
          assert s[i..] == s[1..][i - 1..];
        }
      }
      if k == -1 then -1
      else
        assert s[k + 1..] == s[1..][k..];
        assert OccursAt(s[1..], p, k);
        assert OccursAt(s, p, k + 1);
        assert !OccursAt(s, p, 0);
        k + 1
  }

  /** `s.lastIndexOf(c)` for a one-character pattern. */
  function LastIndexOfChar(s: string, c: char): (r: int)
    ensures -1 <= r < |s|
    ensures r == -1 <==> c !in s
    ensures r != -1 ==> s[r] == c && c !in s[r + 1..]
  {
    if s == [] then -1
    else if s[|s| - 1] == c then |s| - 1
    else
      var r := LastIndexOfChar(s[..|s| - 1], c);
      assert s == s[..|s| - 1] + [s[|s| - 1]];
      assert r != -1 ==> s[r + 1..] == s[..|s| - 1][r + 1..] + [s[|s| - 1]];
      r
  }

  /** A position holding `c` with no `c` after it is the last index of `c`. */
  lemma LastIndexOfCharAt(s: string, c: char, j: int)
    requires 0 <= j < |s| && s[j] == c && c !in s[j + 1..]
    ensures LastIndexOfChar(s, c) == j
  {
  }

  /** When `p` does not occur in `a` followed by all but the last character of
      `p`, the first occurrence of `p` in `a + p + b` is the one right after `a`. */
  lemma IndexOfFirst(a: string, p: string, b: string)
    requires |p| >= 1 && !Contains(a + p[..|p| - 1], p)
    ensures IndexOf(a + p + b, p) == |a|
  {
    var s := a + p + b;
    var t := a + p[..|p| - 1];
    assert s[|a|..][..|p|] == p;
    assert OccursAt(s, p, |a|);
    assert t == s[..|t|];
    forall j | 0 <= j < |a| && OccursAt(s, p, j)
      ensures OccursAt(t, p, j)
    {
      OccursInShorterPrefix(s, |t|, p, j);
    }
  }

  /** An occurrence that ends inside a prefix is an occurrence in the prefix. */
  lemma OccursInShorterPrefix(s: string, n: int, p: string, j: int)
    requires 0 <= n <= |s| && OccursAt(s, p, j) && j + |p| <= n
    ensures OccursAt(s[..n], p, j)
  {
    assert s[j..][..|p|] == s[..n][j..][..|p|];
  }

  /** `p` does not occur in `a + b` when it does not occur in `b` and `a` lacks
      its first character. */
  lemma NoOccurrenceAfterPlain(a: string, b: string, p: string)
    requires |p| >= 1 && p[0] !in a && !Contains(b, p)
    ensures !Contains(a + b, p)
  {
    forall j | 0 <= j <= |a + b| && OccursAt(a + b, p, j)
      ensures OccursAt(b, p, j - |a|)
    {
      assert (a + b)[j..][0] == p[0];
      assert (a + b)[j..] == b[j - |a|..];
    }
  }

  /** Nor does it when `c` is its first character but the next one differs. */
  lemma NoOccurrenceAfterMismatch(c: char, b: string, p: string)
    requires |p| >= 2 && c == p[0] && b != [] && b[0] != p[1] && !Contains(b, p)
    ensures !Contains([c] + b, p)
  {
    forall j | 0 <= j <= |[c] + b| && OccursAt([c] + b, p, j)
      ensures OccursAt(b, p, j - 1)
    {
      assert ([c] + b)[j..] == b[j - 1..];
    }
  }

  /** The text before the first occurrence of `p` is followed by `p` and does
      not contain it. */
  lemma PrefixBeforeFirst(s: string, p: string, i: int)
    requires |p| >= 1 && i == IndexOf(s, p) && i != -1
    ensures StartsWith(s, s[..i] + p) && !Contains(s[..i], p)
  {
    PrefixThenOccurrence(s, p, i);
    forall j | 0 <= j <= i && OccursAt(s[..i], p, j)
      ensures OccursAt(s, p, j) && j < i
    {
      OccursInPrefix(s, i, p, j);
    }
  }

  lemma PrefixThenOccurrence(s: string, p: string, i: int)
    requires OccursAt(s, p, i)
    ensures StartsWith(s, s[..i] + p)
  {
    assert s[i..][..|p|] == p;
    assert s[..i + |p|] == s[..i] + p;
  }

  /** An occurrence inside a prefix is an occurrence in the whole text. */
  lemma OccursInPrefix(s: string, n: int, p: string, j: int)
    requires 0 <= n <= |s| && OccursAt(s[..n], p, j)
    ensures OccursAt(s, p, j) && j + |p| <= n
  {
    assert s[j..][..|p|] == s[..n][j..][..|p|];
  }

  // ---------------------------------------------------------------------------
  // substring, split, replace, trim

  function Clamp(i: int, len: nat): (r: nat)
    ensures r <= len
    ensures 0 <= i <= len ==> r == i
  {
    if i < 0 then 0 else if i > len then len else i
  }

  /** `s.substring(a, b)`: both bounds are clamped into [0, |s|] and swapped
      when the first exceeds the second. */
  function Substring(s: string, a: int, b: int): (r: string)
    ensures 0 <= a <= b <= |s| ==> r == s[a..b]
    ensures a <= 0 && b <= 0 ==> r == []
  {
    var x, y := Clamp(a, |s|), Clamp(b, |s|);
    if x <= y then s[x..y] else s[y..x]
  }

  /** `s.substring(a)`. */
  function SubstringFrom(s: string, a: int): (r: string)
    ensures 0 <= a <= |s| ==> r == s[a..]
  {
    Substring(s, a, |s|)
  }

  /** `s.split(sep)` for a one-character separator. */
  function Split(s: string, sep: char): (parts: seq<string>)
    ensures |parts| >= 1
    ensures forall k :: 0 <= k < |parts| ==> sep !in parts[k]
  {
    if s == [] then [[]]
    else
      var rest := Split(s[1..], sep);
      if s[0] == sep then [[]] + rest
      else [[s[0]] + rest[0]] + rest[1..]
  }

  /** `parts.join(sep)`, the inverse of `Split`. */
  function Join(parts: seq<string>, sep: char): string
    requires |parts| >= 1
  {
    if |parts| == 1 then parts[0] else parts[0] + [sep] + Join(parts[1..], sep)
  }

  lemma {:induction false} JoinSplit(s: string, sep: char)
    ensures Join(Split(s, sep), sep) == s
  {
    if s != [] {
      JoinSplit(s[1..], sep);
      var rest := Split(s[1..], sep);
      if s[0] != sep {
        if |rest| == 1 {
        } else {
          assert ([[s[0]] + rest[0]] + rest[1..])[1..] == rest[1..];
        }
      }
    }
  }

  lemma {:induction false} SplitJoin(parts: seq<string>, sep: char)
    requires |parts| >= 1
    requires forall k :: 0 <= k < |parts| ==> sep !in parts[k]
    ensures Split(Join(parts, sep), sep) == parts
    decreases |parts|
  {
    SplitWithoutSeparator(parts[0], sep);
    if |parts| > 1 {
      var rest := parts[1..];
      assert forall k :: 0 <= k < |rest| ==> rest[k] == parts[k + 1];
      SplitJoin(rest, sep);
      SplitAround(parts[0], sep, Join(rest, sep));
      HeadTail(parts, [], []);
    }
  }

  lemma {:induction false} SplitWithoutSeparator(s: string, sep: char)
    requires sep !in s
    ensures Split(s, sep) == [s]
  {
    if s != [] {
      SplitWithoutSeparator(s[1..], sep);
      assert [s[0]] + s[1..] == s;
    }
  }

  /** One step of `Split` on a text that starts with the separator. */
  lemma SplitConsSep(t: string, sep: char)
    ensures Split([sep] + t, sep) == [[]] + Split(t, sep)
  {
    assert ([sep] + t)[1..] == t;
  }

  /** One step of `Split` on a text that starts with another character. */
  lemma SplitConsOther(c: char, t: string, sep: char)
    requires c != sep
    ensures Split([c] + t, sep) == [[c] + Split(t, sep)[0]] + Split(t, sep)[1..]
  {
    assert ([c] + t)[1..] == t;
  }

  /** Prefixing a character to the first part commutes with appending parts. */
  lemma ExtendFirstPart(c: char, ra: seq<string>, rb: seq<string>)
    requires |ra| >= 1
    ensures [[c] + (ra + rb)[0]] + (ra + rb)[1..] == ([[c] + ra[0]] + ra[1..]) + rb
  {
    assert (ra + rb)[0] == ra[0];
    assert (ra + rb)[1..] == ra[1..] + rb;
  }

  /** Splitting text that has a separator in the middle splits both halves. */
  lemma {:induction false} SplitAround(a: string, sep: char, b: string)
    ensures Split(a + [sep] + b, sep) == Split(a, sep) + Split(b, sep)
  {
    if a == [] {
      assert a + [sep] + b == [sep] + b;
      SplitConsSep(b, sep);
    } else {
      SplitAround(a[1..], sep, b);
      SplitAroundStep(a[0], a[1..], sep, b);
      HeadTail(a, sep, b);
    }
  }

  /** The inductive step of `SplitAround`: one more character in front. */
  lemma SplitAroundStep(c: char, x: string, sep: char, b: string)
    requires Split(x + [sep] + b, sep) == Split(x, sep) + Split(b, sep)
    ensures Split([c] + (x + [sep] + b), sep) == Split([c] + x, sep) + Split(b, sep)
  {
    if c == sep {
      SplitAroundSep(x, sep, b);
    } else {
      SplitAroundOther(c, x, sep, b);
    }
  }

  lemma SplitAroundSep(x: string, sep: char, b: string)
    requires Split(x + [sep] + b, sep) == Split(x, sep) + Split(b, sep)
    ensures Split([sep] + (x + [sep] + b), sep) == Split([sep] + x, sep) + Split(b, sep)
  {
    SplitConsSep(x + [sep] + b, sep);
    SplitConsSep(x, sep);
    var empty: string := [];
    ConcatAssoc([empty], Split(x, sep), Split(b, sep));
  }

  lemma HeadTail<T>(s: seq<T>, x: T, m: seq<T>)
    requires s != []
    ensures [s[0]] + s[1..] == s
    ensures [s[0]] + (s[1..] + [x] + m) == s + [x] + m
  {
    assert [s[0]] + s[1..] == s;
  }

  lemma InitLast<T>(s: seq<T>)
    requires s != []
    ensures s[..|s| - 1] + [s[|s| - 1]] == s
  {
  }

  lemma SnocParts<T>(s: seq<T>, x: T)
    ensures var t := s + [x]; t != [] && t[..|t| - 1] == s && t[|t| - 1] == x
  {
  }

  lemma HeadOfConcat<T>(s: seq<T>, t: seq<T>)
    requires s != []
    ensures (s + t)[0] == s[0]
  {
  }

  lemma ConcatAssoc4<T>(a: seq<T>, b: seq<T>, c: seq<T>, d: seq<T>)
    ensures a + b + c + d == a + ((b + c) + d)
  {
  }

  lemma WholeSlice<T>(s: seq<T>)
    ensures s[|s| - |s|..] == s && s[..|s| - |s|] == []
    ensures s[..|s|] == s && s[|s|..] == []
  {
  }

  lemma ConcatAssoc<T>(x: seq<T>, y: seq<T>, z: seq<T>)
    ensures x + (y + z) == (x + y) + z
  {
  }

  lemma AppendTwo<T>(s: seq<T>, a: T, b: T)
    ensures s + [a] + [b] == s + [a, b]
  {
  }

  /** What follows `a`, `p` and `q` in `a + p + (q + t)`. */
  lemma DropAfter<T>(a: seq<T>, p: seq<T>, q: seq<T>, t: seq<T>)
    ensures (a + p + (q + t))[|a| + |p| + |q|..] == t
  {
    assert a + p + (q + t) == (a + p + q) + t;
  }

  lemma SplitAroundOther(c: char, x: string, sep: char, b: string)
    requires c != sep
    requires Split(x + [sep] + b, sep) == Split(x, sep) + Split(b, sep)
    ensures Split([c] + (x + [sep] + b), sep) == Split([c] + x, sep) + Split(b, sep)
  {
    SplitConsOther(c, x + [sep] + b, sep);
    SplitConsOther(c, x, sep);
    ExtendFirstPart(c, Split(x, sep), Split(b, sep));
  }

  /** The last part of a split is the text after the last separator. */
  lemma {:induction false} SplitLast(s: string, sep: char)
    ensures var parts := Split(s, sep);
            var last := parts[|parts| - 1];
            && |last| <= |s| && s[|s| - |last|..] == last
            && (|last| == |s| || s[|s| - |last| - 1] == sep)
            && (|parts| >= 2 ==> |last| < |s|)
  {
    if s != [] {
      var rest := Split(s[1..], sep);
      SplitLast(s[1..], sep);
      var last := rest[|rest| - 1];
      assert s[|s| - |last|..] == s[1..][|s[1..]| - |last|..];
      assert |last| < |s[1..]| ==> s[|s| - |last| - 1] == s[1..][|s[1..]| - |last| - 1];
      if s[0] != sep && |rest| == 1 {
        JoinSplit(s[1..], sep);
        assert Split(s, sep) == [[s[0]] + s[1..]];
        assert [s[0]] + s[1..] == s;
        assert s[0..] == s;
      } else if s[0] != sep {
        assert Split(s, sep)[|Split(s, sep)| - 1] == last;
      } else {
        assert Split(s, sep)[|Split(s, sep)| - 1] == last;
      }
    }
  }

  /** The last part of a split is the text after the last separator. */
  lemma LastPartAfterLastSeparator(s: string, sep: char)
    ensures var parts := Split(s, sep);
            parts[|parts| - 1] == s[LastIndexOfChar(s, sep) + 1..]
  {
    var parts := Split(s, sep);
    var last := parts[|parts| - 1];
    SplitLast(s, sep);
    assert sep !in last;
    SuffixAfterLastSeparator(s, sep, last);
  }

  /** A separator-free suffix that is all of `s` or follows a separator starts
      right after the last separator. */
  lemma SuffixAfterLastSeparator(s: string, sep: char, last: string)
    requires |last| <= |s| && s[|s| - |last|..] == last && sep !in last
    requires |last| == |s| || s[|s| - |last| - 1] == sep
    ensures last == s[LastIndexOfChar(s, sep) + 1..]
  {
    if |last| == |s| {
      assert s[0..] == s;
    } else {
      LastIndexOfCharAt(s, sep, |s| - |last| - 1);
    }
  }

  /** `s.endsWith(t)`. */
  predicate EndsWith(s: string, t: string) { |t| <= |s| && s[|s| - |t|..] == t }

  lemma EndsWithPrepend(x: string, s: string, t: string)
    requires EndsWith(s, t)
    ensures EndsWith(x + s, t)
  {
    assert (x + s)[|x + s| - |t|..] == s[|s| - |t|..];
  }

  /** A join ends with its last two parts around the separator. */
  lemma {:induction false} JoinLastTwo(parts: seq<string>, sep: char)
    requires |parts| >= 2
    ensures EndsWith(Join(parts, sep), parts[|parts| - 2] + [sep] + parts[|parts| - 1])
    decreases |parts|
  {
    var rest := parts[1..];
    if |parts| == 2 {
      assert Join(rest, sep) == parts[1];
      var j := Join(parts, sep);
      assert j[|j| - |j|..] == j;
    } else {
      JoinLastTwo(rest, sep);
      assert rest[|rest| - 2] == parts[|parts| - 2] && rest[|rest| - 1] == parts[|parts| - 1];
      EndsWithPrepend(parts[0] + [sep], Join(rest, sep), parts[|parts| - 2] + [sep] + parts[|parts| - 1]);
    }
  }

  /** What the last two parts of a split say about the text: there is a
      single part exactly when the separator is absent, and otherwise the
      text ends with the last two parts around a separator. */
  lemma SplitTail(s: string, sep: char)
    ensures var parts := Split(s, sep);
            && (|parts| == 1 <==> sep !in s)
            && (|parts| == 1 ==> parts[0] == s)
            && (|parts| >= 2 ==> EndsWith(s, parts[|parts| - 2] + [sep] + parts[|parts| - 1]))
  {
    var parts := Split(s, sep);
    if sep !in s {
      SplitWithoutSeparator(s, sep);
    }
    if |parts| == 1 {
      SplitWithoutSeparatorRev(s, sep);
    }
    if |parts| >= 2 {
      JoinSplit(s, sep);
      JoinLastTwo(parts, sep);
    }
  }

  /** Splitting text whose last two separator-free segments are `o` and `r`. */
  lemma SplitLastTwo(x: string, sep: char, o: string, r: string)
    requires sep !in o && sep !in r
    ensures Split(x + [sep] + (o + [sep] + r), sep) == Split(x, sep) + [o, r]
  {
    SplitAround(x, sep, o + [sep] + r);
    SplitAround(o, sep, r);
    SplitWithoutSeparator(o, sep);
    SplitWithoutSeparator(r, sep);
  }

  lemma {:induction false} SplitWithoutSeparatorRev(s: string, sep: char)
    requires |Split(s, sep)| == 1
    ensures sep !in s && Split(s, sep) == [s]
  {
    if s != [] {
      SplitWithoutSeparatorRev(s[1..], sep);
      assert [s[0]] + s[1..] == s;
    }
  }

  /** `s.replace(c, rep)` for a one-character pattern: only the first
      occurrence is replaced. */
  function ReplaceFirst(s: string, c: char, rep: string): (r: string)
    ensures c !in s ==> r == s
  {
    if s == [] then []
    else if s[0] == c then rep + s[1..]
    else [s[0]] + ReplaceFirst(s[1..], c, rep)
  }

  /** `s.replaceAll(c, rep)` for a one-character pattern. */
  function ReplaceAll(s: string, c: char, rep: string): (r: string)
    ensures c !in rep ==> c !in r
    ensures c !in s ==> r == s
  {
    if s == [] then []
    else (if s[0] == c then rep else [s[0]]) + ReplaceAll(s[1..], c, rep)
  }

  lemma ReplaceFirstSplit(a: string, c: char, rep: string, b: string)
    requires c !in a
    ensures ReplaceFirst(a + [c] + b, c, rep) == a + rep + b
  {
    if a != [] {
      assert (a + [c] + b)[1..] == a[1..] + [c] + b;
      ReplaceFirstSplit(a[1..], c, rep, b);
    }
  }

  lemma {:induction false} ReplaceAllAppend(a: string, b: string, c: char, rep: string)
    ensures ReplaceAll(a + b, c, rep) == ReplaceAll(a, c, rep) + ReplaceAll(b, c, rep)
    decreases |a|
  {
    if a != [] {
      var x := if a[0] == c then rep else [a[0]];
      var ab := a + b;
      assert ab[0] == a[0] && ab[1..] == a[1..] + b;
      ReplaceAllAppend(a[1..], b, c, rep);
      ConcatAssoc(x, ReplaceAll(a[1..], c, rep), ReplaceAll(b, c, rep));
    } else {
      assert a + b == b;
    }
  }

  ghost predicate AllSpace(s: string) { forall i :: 0 <= i < |s| ==> IsJsSpace(s[i]) }

  function TrimStart(s: string): (r: string)
    ensures |r| <= |s| && r == s[|s| - |r|..]
    ensures AllSpace(s[..|s| - |r|])
    ensures r == [] || !IsJsSpace(r[0])
  {
    if s != [] && IsJsSpace(s[0]) then
      var r := TrimStart(s[1..]);
      TrimStartStep(s, s[1..], r);
      r
    else
      WholeSlice(s);
      s
  }

  /** A leading space extends the white space `TrimStart` removes. */
  lemma TrimStartStep(s: string, t: string, r: string)
    requires s != [] && IsJsSpace(s[0]) && t == s[1..]
    requires |r| <= |t| && r == t[|t| - |r|..] && AllSpace(t[..|t| - |r|])
    ensures r == s[|s| - |r|..] && AllSpace(s[..|s| - |r|])
  {
    assert s[..|s| - |r|] == [s[0]] + t[..|t| - |r|];
  }

  function TrimEnd(s: string): (r: string)
    ensures |r| <= |s| && r == s[..|r|]
    ensures AllSpace(s[|r|..])
    ensures r == [] || !IsJsSpace(r[|r| - 1])
  {
    if s != [] && IsJsSpace(s[|s| - 1]) then
      var r := TrimEnd(s[..|s| - 1]);
      TrimEndStep(s, s[..|s| - 1], r);
      r
    else
      WholeSlice(s);
      s
  }

  /** A trailing space extends the white space `TrimEnd` removes. */
  lemma TrimEndStep(s: string, t: string, r: string)
    requires s != [] && IsJsSpace(s[|s| - 1]) && t == s[..|s| - 1]
    requires |r| <= |t| && r == t[..|r|] && AllSpace(t[|r|..])
    ensures r == s[..|r|] && AllSpace(s[|r|..])
  {
    assert s[|r|..] == t[|r|..] + [s[|s| - 1]];
  }

  /** `s.trim()`: the result is the slice of `s` left once white space is
      removed from both ends. */
  function Trim(s: string): (r: string)
    ensures |r| <= |s|
    ensures NoEdgeSpace(r)
    ensures SpaceAround(s, r)
  {
    var t := TrimStart(s);
    var r := TrimEnd(t);
    TrimSlices(s, t, r);
    r
  }

  /** Neither end of `r` is white space. */
  predicate NoEdgeSpace(r: string) {
    r == [] || (!IsJsSpace(r[0]) && !IsJsSpace(r[|r| - 1]))
  }

  /** `r` is a slice of `s` with only white space before and after it. */
  ghost predicate SpaceAround(s: string, r: string) {
    exists i :: 0 <= i <= |s| - |r| && s[i..i + |r|] == r
                && AllSpace(s[..i]) && AllSpace(s[i + |r|..])
  }

  /** A suffix `t` of `s` after white space, and a prefix `r` of `t` before
      white space, is a slice of `s` with white space around it. */
  lemma TrimSlices(s: string, t: string, r: string)
    requires |t| <= |s| && t == s[|s| - |t|..] && AllSpace(s[..|s| - |t|])
    requires t == [] || !IsJsSpace(t[0])
    requires |r| <= |t| && r == t[..|r|] && AllSpace(t[|r|..])
    requires r == [] || !IsJsSpace(r[|r| - 1])
    ensures |r| <= |s| && NoEdgeSpace(r) && SpaceAround(s, r)
  {
    if r != [] {
      assert r[0] == t[0];
    }
    var i := |s| - |t|;
    assert s[i..i + |r|] == t[..|r|];
    assert s[i + |r|..] == t[|r|..];
  }

  lemma TrimIdempotent(s: string)
    ensures Trim(Trim(s)) == Trim(s)
  {
    var r := Trim(s);
    if r != [] {
      assert TrimStart(r) == r;
      assert TrimEnd(r) == r;
    }
  }

  // ---------------------------------------------------------------------------
  // Numbers

  /** The longest prefix of decimal digits. */
  function DigitRun(s: string): (d: string)
    ensures |d| <= |s| && d == s[..|d|]
    ensures forall i :: 0 <= i < |d| ==> IsDigit(d[i])
    ensures |d| < |s| ==> !IsDigit(s[|d|])
  {
    if s != [] && IsDigit(s[0]) then [s[0]] + DigitRun(s[1..]) else []
  }

  function HexRun(s: string): (h: string)
    ensures |h| <= |s| && h == s[..|h|]
    ensures forall i :: 0 <= i < |h| ==> IsHexDigit(h[i])
  {
    if s != [] && IsHexDigit(s[0]) then [s[0]] + HexRun(s[1..]) else []
  }

  function DigitValue(c: char): (v: nat)
    ensures v < 16
  {
    if IsDigit(c) then c as int - '0' as int
    else if 'a' <= c <= 'f' then c as int - 'a' as int + 10
    else if 'A' <= c <= 'F' then c as int - 'A' as int + 10
    else 0
  }

  /** The value of a run of digits in the given radix, most significant first. */
  function RunValue(d: string, radix: nat): nat {
    if d == [] then 0 else RunValue(d[..|d| - 1], radix) * radix + DigitValue(d[|d| - 1])
  }

  function DigitsValue(d: string): nat { RunValue(d, 10) }

  function DigitChar(v: nat): (c: char)
    requires v < 10
    ensures IsDigit(c) && DigitValue(c) == v
  {
    ('0' as int + v) as char
  }

  /** `String(n)` for a natural number: decimal, no leading zeros. */
  function NatToString(n: nat): (s: string)
    ensures |s| >= 1
    ensures forall i :: 0 <= i < |s| ==> IsDigit(s[i])
    ensures n >= 10 ==> s[0] != '0'
  {
    if n < 10 then [DigitChar(n)] else NatToString(n / 10) + [DigitChar(n % 10)]
  }

  lemma {:induction false} NatToStringValue(n: nat)
    ensures DigitsValue(NatToString(n)) == n
  {
    if n >= 10 {
      NatToStringValue(n / 10);
      var s := NatToString(n);
      assert s[..|s| - 1] == NatToString(n / 10);
      assert s[|s| - 1] == DigitChar(n % 10);
      assert DigitsValue(s) == DigitsValue(NatToString(n / 10)) * 10 + DigitValue(DigitChar(n % 10));
      assert DigitsValue(s) == (n / 10) * 10 + n % 10;
    } else {
      var s := NatToString(n);
      assert s[..|s| - 1] == [];
      assert RunValue([], 10) == 0;
      assert DigitsValue(s) == RunValue([], 10) * 10 + DigitValue(DigitChar(n));
    }
  }

  /** `String(i)` for an integer. */
  function IntToString(i: int): string {
    if i < 0 then "-" + NatToString(-i) else NatToString(i)
  }

  lemma {:induction false} DigitRunOfDigits(d: string, rest: string)
    requires forall i :: 0 <= i < |d| ==> IsDigit(d[i])
    requires rest == [] || !IsDigit(rest[0])
    ensures DigitRun(d + rest) == d
  {
    if d != [] {
      assert (d + rest)[1..] == d[1..] + rest;
      DigitRunOfDigits(d[1..], rest);
    }
  }

  function Signed(negative: bool, v: nat): int { if negative then -(v as int) else v }

  /** Sign handling shared by both forms of `parseInt`. */
  function SignSplit(t: string): (bool, string) {
    if |t| > 0 && t[0] == '-' then (true, t[1..])
    else if |t| > 0 && t[0] == '+' then (false, t[1..])
    else (false, t)
  }

  /** `parseInt(s, 10)`: leading white space, an optional sign, then the
      longest run of decimal digits; `None` stands for NaN. */
  function ParseInt10(s: string): (r: Option<int>)
    ensures r.None? <==> DigitRun(SignSplit(TrimStart(s)).1) == []
  {
    var (negative, u) := SignSplit(TrimStart(s));
    var d := DigitRun(u);
    if d == [] then None else Some(Signed(negative, DigitsValue(d)))
  }

  /** `parseInt(s)` without a radix: as above, except that a "0x" or "0X"
      prefix switches to hexadecimal. */
  function ParseInt(s: string): (r: Option<int>)
  {
    var (negative, u) := SignSplit(TrimStart(s));
    if |u| >= 2 && u[0] == '0' && (u[1] == 'x' || u[1] == 'X') then
      var h := HexRun(u[2..]);
      if h == [] then None else Some(Signed(negative, RunValue(h, 16)))
    else
      var d := DigitRun(u);
      if d == [] then None else Some(Signed(negative, DigitsValue(d)))
  }

  /** `parseInt(String(n), 10)` gives back `n`, whatever non-digit text follows. */
  lemma ParseInt10NatToString(n: nat, rest: string)
    requires rest == [] || !IsDigit(rest[0])
    ensures ParseInt10(NatToString(n) + rest) == Some(n)
  {
    var s := NatToString(n) + rest;
    assert s[0] == NatToString(n)[0];
    DigitIsNoSpaceOrSign(s[0]);
    assert TrimStart(s) == s;
    assert SignSplit(s) == (false, s);
    DigitRunOfDigits(NatToString(n), rest);
    NatToStringValue(n);
  }

  lemma DigitIsNoSpaceOrSign(c: char)
    requires IsDigit(c)
    ensures !IsJsSpace(c) && c != '-' && c != '+'
  {
  }

  /** The same for `parseInt` without a radix, unless an "x" follows a lone "0". */
  lemma ParseIntNatToString(n: nat, rest: string)
    requires rest == [] || (!IsDigit(rest[0]) && rest[0] != 'x' && rest[0] != 'X')
    ensures ParseInt(NatToString(n) + rest) == Some(n)
  {
    var s := NatToString(n) + rest;
    assert s[0] == NatToString(n)[0];
    DigitIsNoSpaceOrSign(s[0]);
    assert TrimStart(s) == s;
    assert SignSplit(s) == (false, s);
    if n >= 10 {
      assert IsDigit(s[1]);
    } else {
      assert |s| >= 2 ==> s[1] == rest[0];
    }
    DigitRunOfDigits(NatToString(n), rest);
    NatToStringValue(n);
  }
}
