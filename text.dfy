/** The few Python string operations the two scripts rely on, written over
    `string` (a sequence of characters): `str.split()`, `str.split(c, 1)`,
    `str.split(c)[0]`, `in` on strings, `str.lower()`, `str.strip()`,
    `str.replace(c, "")`, `int()` on a token and `str()` of an integer. */
module Text {
  import opened Wrappers

  /** `len(range(n))`: `n`, or nothing when `n` is negative. */
  function Max0(n: int): nat
  {
    if n > 0 then n else 0
  }

  /** The characters that `str.split()` and `str.strip()` treat as whitespace. */
  predicate IsSpace(c: char)
  {
    c == ' ' || ('\t' <= c <= '\r') || ('\U{1c}' <= c <= '\U{1f}') ||
    c == '\U{85}' || c == '\U{a0}' || c == '\U{1680}' || ('\U{2000}' <= c <= '\U{200a}') ||
    c == '\U{2028}' || c == '\U{2029}' || c == '\U{202f}' || c == '\U{205f}' || c == '\U{3000}'
  }

  predicate NoSpace(s: string)
  {
    forall k :: 0 <= k < |s| ==> !IsSpace(s[k])
  }

  predicate AllSpace(s: string)
  {
    forall k :: 0 <= k < |s| ==> IsSpace(s[k])
  }

  /** Length of the run of non-space characters at the start of `s`. */
  function WordLength(s: string): (n: nat)
    ensures n <= |s|
    ensures NoSpace(s[..n])
    ensures n < |s| ==> IsSpace(s[n])
    decreases |s|
  {
    if s == [] || IsSpace(s[0]) then 0
    else
      var m := WordLength(s[1..]);
      assert s[..m + 1] == [s[0]] + s[1..][..m];
      m + 1
  }

  /** `s.split()`: the maximal runs of non-space characters, in order. */
  function Split(s: string): (r: seq<string>)
    ensures forall t :: t in r ==> t != [] && NoSpace(t)
    ensures r == [] <==> AllSpace(s)
    decreases |s|
  {
    if s == [] then []
    else if IsSpace(s[0]) then
      assert forall k :: 0 < k < |s| ==> s[k] == s[1..][k - 1];
      Split(s[1..])
    else
      var n := WordLength(s);
      [s[..n]] + Split(s[n..])
  }

  lemma SplitWord(w: string, rest: string)
    requires w != [] && NoSpace(w)
    requires rest == [] || IsSpace(rest[0])
    ensures Split(w + rest) == [w] + Split(rest)
  {
    var s := w + rest;
    WordLengthOf(w, rest);
    assert s[..|w|] == w && s[|w|..] == rest;
  }

  lemma {:induction false} WordLengthOf(w: string, rest: string)
    requires NoSpace(w)
    requires rest == [] || IsSpace(rest[0])
    ensures WordLength(w + rest) == |w|
    decreases |w|
  {
    if w != [] {
      assert (w + rest)[1..] == w[1..] + rest;
      WordLengthOf(w[1..], rest);
    } else {
      assert w + rest == rest;
    }
  }

  lemma SplitSpace(c: char, rest: string)
    requires IsSpace(c)
    ensures Split([c] + rest) == Split(rest)
  {
    assert ([c] + rest)[1..] == rest;
  }

  lemma SplitWordSpace(w: string, c: char, rest: string)
    requires w != [] && NoSpace(w) && IsSpace(c)
    ensures Split(w + [c] + rest) == [w] + Split(rest)
  {
    SplitWord(w, [c] + rest);
    SplitSpace(c, rest);
    assert w + [c] + rest == w + ([c] + rest);
  }

  /** `sep.join(ws)` for a one-character separator. */
  function Join(sep: char, ws: seq<string>): string
    decreases |ws|
  {
    if ws == [] then "" else if |ws| == 1 then ws[0] else ws[0] + [sep] + Join(sep, ws[1..])
  }

  /** Splitting words joined by one blank character gives the words back. */
  lemma {:induction false} SplitJoin(sep: char, ws: seq<string>)
    requires IsSpace(sep)
    requires forall k :: 0 <= k < |ws| ==> ws[k] != [] && NoSpace(ws[k])
    ensures Split(Join(sep, ws)) == ws
    decreases |ws|
  {
    if |ws| == 1 {
      SplitWord(ws[0], "");
      assert ws[0] + "" == ws[0];
    } else if |ws| > 1 {
      SplitWordSpace(ws[0], sep, Join(sep, ws[1..]));
      SplitJoin(sep, ws[1..]);
    }
  }

  /** `t` occurs in `s` at position `i`. */
  predicate OccursAt(s: string, t: string, i: nat)
  {
    i + |t| <= |s| && s[i..i + |t|] == t
  }

  /** The `in` operator on two strings: `t` occurs in `s` as a contiguous block. */
  predicate Contains(s: string, t: string)
  {
    exists i: nat | i <= |s| :: OccursAt(s, t, i)
  }

  /** A string that contains a non-empty word without spaces is not all spaces. */
  lemma ContainsWord(s: string, t: string)
    requires t != [] && NoSpace(t)
    requires Contains(s, t)
    ensures !AllSpace(s)
  {
    var i: nat :| i <= |s| && OccursAt(s, t, i);
    assert s[i] == s[i..i + |t|][0];
  }

  /** Nothing non-empty occurs in the empty string. */
  lemma NotInEmpty(t: string)
    requires t != []
    ensures !Contains("", t)
  {
  }

  /** `c.lower()` on the ASCII letters. */
  function LowerChar(c: char): char
  {
    if 'A' <= c <= 'Z' then (c as int + 32) as char else c
  }

  /** `s.lower()`, character by character. */
  function Lower(s: string): (r: string)
    ensures |r| == |s|
    ensures forall k :: 0 <= k < |s| ==> r[k] == LowerChar(s[k])
  {
    seq(|s|, k requires 0 <= k < |s| => LowerChar(s[k]))
  }

  /** Lowering keeps every occurrence: `t in s` implies `t.lower() in s.lower()`. */
  lemma ContainsLower(s: string, t: string)
    requires Contains(s, t)
    ensures Contains(Lower(s), Lower(t))
  {
    var i: nat :| i <= |s| && OccursAt(s, t, i);
    var ls, lt := Lower(s), Lower(t);
    assert ls[i..i + |t|] == lt by {
      forall k | 0 <= k < |t|
        ensures ls[i..i + |t|][k] == lt[k]
      {
        assert s[i..i + |t|][k] == t[k];
      }
    }
    assert OccursAt(ls, lt, i);
  }

  /** Lowering never turns a space into a non-space or back. */
  lemma LowerKeepsSpaces(s: string)
    ensures AllSpace(Lower(s)) <==> AllSpace(s)
  {
    var r := Lower(s);
    forall k | 0 <= k < |s|
      ensures IsSpace(r[k]) <==> IsSpace(s[k])
    {
      assert r[k] == LowerChar(s[k]);
    }
  }

  /** `s.split(c)[0]`: everything before the first `c` (all of `s` when there is none). */
  function BeforeFirst(s: string, c: char): (r: string)
    ensures r <= s
    ensures c !in r
    ensures |r| < |s| ==> s[|r|] == c
    decreases |s|
  {
    if s == [] || s[0] == c then [] else [s[0]] + BeforeFirst(s[1..], c)
  }

  /** The prefix before the first `c` of `p + [c] + q` is `p` when `p` has no `c`. */
  lemma BeforeFirstOf(p: string, c: char, q: string)
    requires c !in p
    ensures BeforeFirst(p + [c] + q, c) == p
    ensures BeforeFirst(p, c) == p
  {
    var s := p + [c] + q;
    assert s[|p|] == c;
  }

  /** `s.split(c, 1)[-1]`: everything after the first `c`, or all of `s` when there is none. */
  function AfterFirst(s: string, c: char): (r: string)
    ensures c in s ==> s == BeforeFirst(s, c) + [c] + r
    ensures c !in s ==> r == s
  {
    var p := BeforeFirst(s, c);
    if |p| < |s| then
      assert s == p + [c] + s[|p| + 1..];
      s[|p| + 1..]
    else
      s
  }

  /** `s.lstrip()` */
  function StripLeft(s: string): (r: string)
    ensures |r| <= |s| && r == s[|s| - |r|..]
    ensures AllSpace(s[..|s| - |r|])
    ensures r == [] || !IsSpace(r[0])
    decreases |s|
  {
    if s != [] && IsSpace(s[0]) then
      var r := StripLeft(s[1..]);
      assert s[..|s| - |r|] == [s[0]] + s[1..][..|s[1..]| - |r|];
      r
    else s
  }

  /** `s.rstrip()` */
  function StripRight(s: string): (r: string)
    ensures |r| <= |s| && r == s[..|r|]
    ensures AllSpace(s[|r|..])
    ensures r == [] || !IsSpace(r[|r| - 1])
    decreases |s|
  {
    if s != [] && IsSpace(s[|s| - 1]) then
      var r := StripRight(s[..|s| - 1]);
      assert s[|r|..] == s[..|s| - 1][|r|..] + [s[|s| - 1]];
      r
    else s
  }

  /** `s.strip()`: `s` without its leading and trailing whitespace. */
  function Strip(s: string): (r: string)
    ensures |r| <= |s|
    ensures exists i :: StrippedAt(s, r, i)
    ensures r == [] || (!IsSpace(r[0]) && !IsSpace(r[|r| - 1]))
  {
    StripBlock(s);
    StripRight(StripLeft(s))
  }

  lemma StripBlock(s: string)
    ensures StrippedAt(s, StripRight(StripLeft(s)), |s| - |StripLeft(s)|)
  {
    BlockOf(s, StripLeft(s), StripRight(StripLeft(s)));
  }

  /** A right part `l` of `s` after whitespace, and a left part `r` of `l`
      before whitespace, make `r` a block of `s` between whitespace. */
  lemma BlockOf(s: string, l: string, r: string)
    requires |l| <= |s| && l == s[|s| - |l|..] && AllSpace(s[..|s| - |l|])
    requires |r| <= |l| && r == l[..|r|] && AllSpace(l[|r|..])
    ensures StrippedAt(s, r, |s| - |l|)
  {
    var i := |s| - |l|;
    assert s[i..][..|r|] == s[i..i + |r|];
    assert s[i + |r|..] == l[|r|..];
  }

  /** `r` is the block of `s` from `i` on, with only whitespace before and after it. */
  ghost predicate StrippedAt(s: string, r: string, i: int)
  {
    0 <= i && i + |r| <= |s| && r == s[i..i + |r|] && AllSpace(s[..i]) && AllSpace(s[i + |r|..])
  }

  /** `s.replace(c, "")`: `s` with every `c` removed. */
  function RemoveAll(s: string, c: char): (r: string)
    ensures c !in r
    ensures forall x :: x in r <==> x in s && x != c
    ensures c !in s ==> r == s
    decreases |s|
  {
    if s == [] then []
    else (if s[0] == c then [] else [s[0]]) + RemoveAll(s[1..], c)
  }

  /** Removal works piece by piece and keeps exactly the characters other
      than `c`: the kept characters stay in order, each as often as in `s`. */
  lemma {:induction false} RemoveAllPieces(a: string, b: string, x: char, c: char)
    ensures RemoveAll(a + b, c) == RemoveAll(a, c) + RemoveAll(b, c)
    ensures RemoveAll([x], c) == if x == c then [] else [x]
    decreases |a|
  {
    assert [x][1..] == [];
    if a != [] {
      assert (a + b)[0] == a[0] && (a + b)[1..] == a[1..] + b;
      RemoveAllPieces(a[1..], b, x, c);
    } else {
      assert a + b == b;
    }
  }

  predicate IsDigit(c: char)
  {
    '0' <= c <= '9'
  }

  function DigitValue(c: char): nat
    requires IsDigit(c)
  {
    c as int - '0' as int
  }

  function DigitChar(d: nat): (c: char)
    requires d < 10
    ensures IsDigit(c) && DigitValue(c) == d
  {
    ('0' as int + d) as char
  }

  /** `str(n)` for a natural number: its decimal digits. */
  function NatToString(n: nat): (s: string)
    ensures s != [] && forall k :: 0 <= k < |s| ==> IsDigit(s[k])
    decreases n
  {
    if n < 10 then [DigitChar(n)] else NatToString(n / 10) + [DigitChar(n % 10)]
  }

  /** `str(x)` for an integer: a minus sign before the digits of a negative number. */
  function IntToString(x: int): string
  {
    if x < 0 then "-" + NatToString(-x) else NatToString(x)
  }

  /** The digit part Python's `int()` accepts: digits, with single underscores
      allowed between two digits. */
  predicate DigitsWellFormed(s: string)
  {
    s != [] && IsDigit(s[0]) && IsDigit(s[|s| - 1]) &&
    (forall k :: 0 <= k < |s| ==> IsDigit(s[k]) || s[k] == '_') &&
    (forall k :: 0 < k < |s| && s[k] == '_' ==> s[k - 1] != '_')
  }

  /** The decimal value of the digits of `s`, underscores skipped. */
  function DigitsValue(s: string): nat
    decreases |s|
  {
    if s == [] then 0
    else if IsDigit(s[|s| - 1]) then 10 * DigitsValue(s[..|s| - 1]) + DigitValue(s[|s| - 1])
    else DigitsValue(s[..|s| - 1])
  }

  /** `int(s)` for a token `s` (a string without whitespace): an optional sign,
      then a well-formed digit part; `None` stands for the `ValueError`.
      Only digits, underscores and a leading sign are accepted, and every
      plain run of digits is read as a natural number. */
  function ParseInt(s: string): (r: Option<int>)
    ensures r.Some? ==> (s != [] && IsDigit(s[|s| - 1]) &&
      forall k :: 0 <= k < |s| ==> IsDigit(s[k]) || s[k] == '_' || (k == 0 && (s[k] == '+' || s[k] == '-')))
    ensures s != [] && (forall k :: 0 <= k < |s| ==> IsDigit(s[k])) ==> r == Some(DigitsValue(s))
  {
    if |s| > 0 && (s[0] == '+' || s[0] == '-') then
      if DigitsWellFormed(s[1..]) then
        Some(if s[0] == '-' then -(DigitsValue(s[1..]) as int) else DigitsValue(s[1..]))
      else None
    else if DigitsWellFormed(s) then Some(DigitsValue(s))
    else None
  }

  lemma {:induction false} NatToStringValue(n: nat)
    ensures DigitsValue(NatToString(n)) == n
    decreases n
  {
    if n >= 10 {
      var s := NatToString(n);
      assert s[..|s| - 1] == NatToString(n / 10);
      NatToStringValue(n / 10);
    }
  }

  /** Reading back what `str()` wrote gives the same integer. */
  lemma ParseIntRoundTrip(x: int)
    ensures ParseInt(IntToString(x)) == Some(x)
  {
    var n: nat := if x < 0 then -x else x;
    var d := NatToString(n);
    NatToStringValue(n);
    assert DigitsWellFormed(d);
    if x < 0 {
      assert IntToString(x)[1..] == d;
    }
  }

  /** Distinct numbers are written differently. */
  lemma NatToStringInjective(i: nat, j: nat)
    requires NatToString(i) == NatToString(j)
    ensures i == j
  {
    NatToStringValue(i);
    NatToStringValue(j);
  }

  /** In-order concatenation of a sequence of sequences. */
  function Flatten<T>(ss: seq<seq<T>>): (r: seq<T>)
    decreases |ss|
  {
    if ss == [] then [] else Flatten(ss[..|ss| - 1]) + ss[|ss| - 1]
  }

  /** The elements of `s` that satisfy `p`, in order. */
  function Filter<T>(s: seq<T>, p: T -> bool): (r: seq<T>)
    ensures |r| <= |s|
    ensures forall x :: x in r ==> x in s && p(x)
    decreases |s|
  {
    if s == [] then []
    else Filter(s[..|s| - 1], p) + (if p(s[|s| - 1]) then [s[|s| - 1]] else [])
  }

  /** `s[j]` is the first element of `s` that satisfies `p`. */
  ghost predicate FirstWith<T>(s: seq<T>, p: T -> bool, j: int)
  {
    0 <= j < |s| && p(s[j]) && forall k :: 0 <= k < j ==> !p(s[k])
  }

  /** `Filter` keeps nothing exactly when no element satisfies `p`, and
      otherwise starts with the first element that does. */
  lemma {:induction false} FilterFirst<T>(s: seq<T>, p: T -> bool)
    ensures Filter(s, p) == [] <==> forall k :: 0 <= k < |s| ==> !p(s[k])
    ensures Filter(s, p) != [] ==> exists j :: FirstWith(s, p, j) && Filter(s, p)[0] == s[j]
    decreases |s|
  {
    if s != [] {
      var pre := s[..|s| - 1];
      FilterFirst(pre, p);
      assert forall k :: 0 <= k < |pre| ==> pre[k] == s[k];
      if Filter(pre, p) != [] {
        var j :| FirstWith(pre, p, j) && Filter(pre, p)[0] == pre[j];
        assert FirstWith(s, p, j);
      } else if p(s[|s| - 1]) {
        assert FirstWith(s, p, |s| - 1);
      }
    }
  }

  /** `[f(x) for x in s]` */
  function Map<T, U>(s: seq<T>, f: T -> U): (r: seq<U>)
    ensures |r| == |s|
    ensures forall k :: 0 <= k < |s| ==> r[k] == f(s[k])
  {
    seq(|s|, k requires 0 <= k < |s| => f(s[k]))
  }

  lemma MapSnoc<T, U>(s: seq<T>, x: T, f: T -> U)
    ensures Map(s + [x], f) == Map(s, f) + [f(x)]
  {
    assert Map(s + [x], f)[..|s|] == Map(s, f);
  }
}
