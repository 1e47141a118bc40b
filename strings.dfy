/** The JavaScript string operations the wizard relies on: `trim`, the `\s`
    class, `split('\n')`, `join('\n')`, `includes`, `toLowerCase` on ASCII
    letters, and the decimal rendering of a day index in a template literal. */
module Strings {

  /** The characters `\s` matches and `trim` removes: WhiteSpace and
      LineTerminator of ECMAScript. */
  predicate IsSpace(c: char) {
    || c == ' ' || c == '\t' || c == '\n' || c == '\r' || c == '\U{0B}' || c == '\U{0C}'
    || c == '\U{A0}' || c == '\U{1680}' || ('\U{2000}' <= c <= '\U{200A}')
    || c == '\U{2028}' || c == '\U{2029}' || c == '\U{202F}' || c == '\U{205F}'
    || c == '\U{3000}' || c == '\U{FEFF}'
  }

  /** The characters a regular-expression `.` does not match. */
  predicate IsLineTerminator(c: char) {
    c == '\n' || c == '\r' || c == '\U{2028}' || c == '\U{2029}'
  }

  /** The first index at or after `from` that holds no space, or `|s|`. */
  function SpaceRunEnd(s: string, from: nat): (k: nat)
    requires from <= |s|
    ensures from <= k <= |s|
    ensures forall i :: from <= i < k ==> IsSpace(s[i])
    ensures k < |s| ==> !IsSpace(s[k])
    decreases |s| - from
  {
    if from == |s| || !IsSpace(s[from]) then from else SpaceRunEnd(s, from + 1)
  }

  /** The index just after the last character before `to` that is no space,
      or 0. */
  function SpaceRunStart(s: string, to: nat): (k: nat)
    requires to <= |s|
    ensures k <= to
    ensures forall i :: k <= i < to ==> IsSpace(s[i])
    ensures k > 0 ==> !IsSpace(s[k - 1])
  {
    if to == 0 || !IsSpace(s[to - 1]) then to else SpaceRunStart(s, to - 1)
  }

  /** The first index at or after `from` holding a line terminator, or `|s|`:
      where a regular-expression `.*` started at `from` stops. */
  function LineEnd(s: string, from: nat): (k: nat)
    requires from <= |s|
    ensures from <= k <= |s|
    ensures forall i :: from <= i < k ==> !IsLineTerminator(s[i])
    ensures k < |s| ==> IsLineTerminator(s[k])
    decreases |s| - from
  {
    if from == |s| || IsLineTerminator(s[from]) then from else LineEnd(s, from + 1)
  }

  /** `String.prototype.trimStart`. */
  function TrimStart(s: string): (r: string)
    ensures |r| <= |s| && r == s[|s| - |r|..]
    ensures r != [] ==> !IsSpace(r[0])
    ensures forall i :: 0 <= i < |s| - |r| ==> IsSpace(s[i])
  {
    s[SpaceRunEnd(s, 0)..]
  }

  /** `String.prototype.trim`: without its leading and trailing spaces. */
  function Trim(s: string): (r: string)
    ensures r != [] ==> !IsSpace(r[0]) && !IsSpace(r[|r| - 1])
    ensures s != [] && !IsSpace(s[0]) && !IsSpace(s[|s| - 1]) ==> r == s
  {
    var a := SpaceRunEnd(s, 0);
    var e := SpaceRunStart(s, |s|);
    if e <= a then [] else s[a..e]
  }

  /** What `trim` keeps: a slice of `s`, so no character that `s` lacks,
      between runs of spaces only. */
  lemma TrimSlice(s: string)
    ensures exists a, e :: (0 <= a <= e <= |s| && Trim(s) == s[a..e]
      && (forall i :: 0 <= i < a ==> IsSpace(s[i]))
      && (forall i :: e <= i < |s| ==> IsSpace(s[i])))
  {
    var a := SpaceRunEnd(s, 0);
    var e := SpaceRunStart(s, |s|);
    if e <= a {
      assert Trim(s) == s[a..a];
    } else {
      assert Trim(s) == s[a..e];
    }
  }

  /** `trim` removes nothing but spaces, so it keeps every other character. */
  lemma TrimChars(s: string)
    ensures forall c :: c in Trim(s) ==> c in s
  {
    TrimSlice(s);
    var a, e :| 0 <= a <= e <= |s| && Trim(s) == s[a..e];
    assert forall i :: 0 <= i < e - a ==> s[a..e][i] == s[a + i];
  }

  /** The characters of a slice of `s` are characters of `s`. */
  lemma SliceChars(s: string, k: nat)
    requires k <= |s|
    ensures forall c :: c in s[k..] ==> c in s
    ensures forall c :: c in s[..k] ==> c in s
  {
    assert forall i :: k <= i < |s| ==> s[k..][i - k] == s[i];
  }

  /** The first index at or after `from` holding `c`, or `|s|` when none does. */
  function IndexOf(s: string, c: char, from: nat): (i: nat)
    requires from <= |s|
    ensures from <= i <= |s|
    ensures i < |s| ==> s[i] == c
    ensures forall k :: from <= k < i ==> s[k] != c
    decreases |s| - from
  {
    if from == |s| || s[from] == c then from else IndexOf(s, c, from + 1)
  }

  /** `s.split(sep)` for a one-character separator: the pieces between
      separators, always at least one. */
  function Split(s: string, sep: char): (r: seq<string>)
    ensures |r| >= 1
    decreases |s|
  {
    var i := IndexOf(s, sep, 0);
    if i == |s| then [s] else [s[..i]] + Split(s[i + 1..], sep)
  }

  /** `xs.join(sep)` for a one-character separator. */
  function Join(xs: seq<string>, sep: char): (r: string)
    ensures |xs| == 1 ==> r == xs[0]
  {
    if xs == [] then ""
    else if |xs| == 1 then xs[0]
    else xs[0] + [sep] + Join(xs[1..], sep)
  }

  /** Splitting a join gives back the pieces, provided no piece contains the
      separator. */
  lemma {:induction false} SplitJoin(xs: seq<string>, sep: char)
    requires |xs| >= 1
    requires forall k :: 0 <= k < |xs| ==> sep !in xs[k]
    ensures Split(Join(xs, sep), sep) == xs
  {
    if |xs| == 1 {
      var i := IndexOf(xs[0], sep, 0);
      assert i == |xs[0]|;
    } else {
      var s := Join(xs, sep);
      var rest := Join(xs[1..], sep);
      assert s == xs[0] + [sep] + rest;
      assert s[|xs[0]|] == sep;
      assert forall k :: 0 <= k < |xs[0]| ==> s[k] == xs[0][k];
      var i := IndexOf(s, sep, 0);
      assert i == |xs[0]|;
      assert s[..i] == xs[0];
      assert s[i + 1..] == rest;
      SplitJoin(xs[1..], sep);
    }
  }

  /** `SplitJoin` for any list: the round trip holds whenever the list is
      non-empty and no piece contains the separator. */
  lemma SplitJoinWhen(xs: seq<string>, sep: char)
    ensures |xs| >= 1 && (forall k :: 0 <= k < |xs| ==> sep !in xs[k]) ==> Split(Join(xs, sep), sep) == xs
  {
    if |xs| >= 1 && forall k :: 0 <= k < |xs| ==> sep !in xs[k] {
      SplitJoin(xs, sep);
    }
  }

  /** `s.startsWith(p)`. */
  predicate StartsWith(s: string, p: string) {
    |p| <= |s| && s[..|p|] == p
  }

  /** `s.includes(p)`: `p` occurs in `s`. */
  predicate Contains(s: string, p: string) {
    ContainsFrom(s, p, 0)
  }

  /** `p` occurs in `s` at some index at or after `from`. */
  predicate ContainsFrom(s: string, p: string, from: nat)
    decreases |s| - from
  {
    from + |p| <= |s| && (s[from..from + |p|] == p || ContainsFrom(s, p, from + 1))
  }

  /** An occurrence of `p` at index `i` is found by the search. */
  lemma {:induction false} ContainsAt(s: string, p: string, from: nat, i: nat)
    requires from <= i && i + |p| <= |s| && s[i..i + |p|] == p
    ensures ContainsFrom(s, p, from)
    decreases i - from
  {
    if from < i {
      ContainsAt(s, p, from + 1, i);
    }
  }

  /** A text in which the first two characters of `p` never stand side by
      side does not contain `p`. */
  lemma {:induction false} NoPairNotContains(s: string, p: string, from: nat)
    requires |p| >= 2
    requires forall i :: from <= i && i + 1 < |s| ==> !(s[i] == p[0] && s[i + 1] == p[1])
    ensures !ContainsFrom(s, p, from)
    decreases |s| - from
  {
    if from + |p| <= |s| {
      assert s[from..from + |p|][0] == s[from] && s[from..from + |p|][1] == s[from + 1];
      NoPairNotContains(s, p, from + 1);
    }
  }

  function LowerChar(c: char): char {
    if 'A' <= c <= 'Z' then (c as int + 32) as char else c
  }

  /** `toLowerCase` restricted to ASCII letters; every other character is kept. */
  function Lower(s: string): (r: string)
    ensures |r| == |s|
    ensures forall i :: 0 <= i < |s| ==> r[i] == LowerChar(s[i])
  {
    seq(|s|, i requires 0 <= i < |s| => LowerChar(s[i]))
  }

  function DigitChar(d: nat): (c: char)
    requires d < 10
    ensures '0' <= c <= '9'
  {
    ('0' as int + d) as char
  }

  /** The decimal text of a natural number, as a template literal prints it. */
  function NatToString(n: nat): (r: string)
    ensures |r| >= 1
    ensures forall i :: 0 <= i < |r| ==> '0' <= r[i] <= '9'
    ensures (|r| == 1) <==> n < 10
  {
    if n < 10 then [DigitChar(n)] else NatToString(n / 10) + [DigitChar(n % 10)]
  }

  /** Distinct numbers print differently. */
  lemma {:induction false} NatToStringInjective(m: nat, n: nat)
    requires NatToString(m) == NatToString(n)
    ensures m == n
  {
    if m >= 10 && n >= 10 {
      var a, b := NatToString(m), NatToString(n);
      assert a[|a| - 1] == DigitChar(m % 10) && b[|b| - 1] == DigitChar(n % 10);
      assert a[..|a| - 1] == NatToString(m / 10);
      assert b[..|b| - 1] == NatToString(n / 10);
      NatToStringInjective(m / 10, n / 10);
    }
  }

  /** In `x + [c] + y` with `c` not in `x`, the first `c` sits right after `x`. */
  lemma IndexOfAfter(x: string, y: string, c: char)
    requires c !in x
    ensures IndexOf(x + [c] + y, c, 0) == |x|
  {
    var s := x + [c] + y;
    assert s[|x|] == c;
    assert forall k :: 0 <= k < |x| ==> s[k] == x[k] && x[k] != c;
  }

  /** Two strings joined by a character that the first part does not contain
      determine both parts. */
  lemma SplitAtFirst(x: string, y: string, x': string, y': string, c: char)
    requires c !in x && c !in x'
    requires x + [c] + y == x' + [c] + y'
    ensures x == x' && y == y'
  {
    var s := x + [c] + y;
    IndexOfAfter(x, y, c);
    IndexOfAfter(x', y', c);
    assert x == s[..|x|] == x';
    assert y == s[|x| + 1..] == y';
  }
}
