/**
 * The Python `str` operations the script is built from (`in`, `replace`,
 * `split`, `join`, `%d`, `int(...)`), written over Dafny strings, and the
 * folder normalisation `asfolder` (qiime_analysis.py:50-54).
 */
module Text {
  import opened Base

  /** Python's `p in s`. */
  predicate Contains(s: string, p: string)
    decreases |s|
  {
    |p| <= |s| && (s[..|p|] == p || Contains(s[1..], p))
  }

  /** Python's `s.replace(p, r)`: every occurrence of `p`, scanned left to right
      without overlap, is replaced by `r`. */
  function ReplaceAll(s: string, p: string, r: string): string
    requires |p| > 0
    decreases |s|
  {
    if |s| < |p| then s
    else if s[..|p|] == p then r + ReplaceAll(s[|p|..], p, r)
    else [s[0]] + ReplaceAll(s[1..], p, r)
  }

  /** Python's `s.split(sep)`. */
  function Split(s: string, sep: string): (parts: seq<string>)
    requires |sep| > 0
    ensures |parts| > 0
    decreases |s|
  {
    if |s| < |sep| then [s]
    else if s[..|sep|] == sep then [[]] + Split(s[|sep|..], sep)
    else
      var rest := Split(s[1..], sep);
      [[s[0]] + rest[0]] + rest[1..]
  }

  /** Python's `sep.join(parts)`. */
  function Join(parts: seq<string>, sep: string): string
    decreases |parts|
  {
    if |parts| == 0 then []
    else if |parts| == 1 then parts[0]
    else parts[0] + sep + Join(parts[1..], sep)
  }

  /** The characters of `s` that are not in `bad`, in order. */
  function Without(s: string, bad: set<char>): string
    decreases |s|
  {
    if s == [] then []
    else (if s[0] in bad then [] else [s[0]]) + Without(s[1..], bad)
  }

  /** `asfolder`: append a `/` unless the name already ends with one.
      `folder[-1]` raises on the empty string, so callers must pass a
      non-empty name. */
  function AsFolder(folder: string): (r: string)
    requires |folder| > 0
    ensures |r| > 0 && r[|r| - 1] == '/'
    ensures r == folder <==> folder[|folder| - 1] == '/'
    ensures r != folder ==> r == folder + "/"
  {
    if folder[|folder| - 1] != '/' then folder + "/" else folder
  }

  lemma AsFolderIdempotent(folder: string)
    requires |folder| > 0
    ensures AsFolder(AsFolder(folder)) == AsFolder(folder)
  {
  }

  // ---------------------------------------------------------------------------
  // Properties of replace, split and join
  // ---------------------------------------------------------------------------

  lemma ContainsPrefix(p: string, t: string)
    ensures Contains(p + t, p)
  {
    assert (p + t)[..|p|] == p;
  }

  lemma ContainsCons(c: char, t: string, p: string)
    requires Contains(t, p)
    ensures Contains([c] + t, p)
  {
    assert ([c] + t)[1..] == t;
  }

  /** A string without the pattern is left unchanged by `replace`. */
  lemma {:induction false} ReplaceAbsent(s: string, p: string, r: string)
    requires |p| > 0 && !Contains(s, p)
    ensures ReplaceAll(s, p, r) == s
    decreases |s|
  {
    if |s| >= |p| {
      ReplaceAbsent(s[1..], p, r);
      assert [s[0]] + s[1..] == s;
    }
  }

  /** If the pattern occurs, its replacement occurs in the result. */
  lemma {:induction false} ReplaceIntroduces(s: string, p: string, r: string)
    requires |p| > 0 && Contains(s, p)
    ensures Contains(ReplaceAll(s, p, r), r)
    decreases |s|
  {
    if s[..|p|] == p {
      ContainsPrefix(r, ReplaceAll(s[|p|..], p, r));
    } else {
      ReplaceIntroduces(s[1..], p, r);
      ContainsCons(s[0], ReplaceAll(s[1..], p, r), r);
    }
  }

  /** A replacement of the same length keeps the length of the string. */
  lemma {:induction false} ReplaceKeepsLength(s: string, p: string, r: string)
    requires |p| > 0 && |r| == |p|
    ensures |ReplaceAll(s, p, r)| == |s|
    decreases |s|
  {
    if |s| >= |p| {
      if s[..|p|] == p {
        ReplaceKeepsLength(s[|p|..], p, r);
      } else {
        ReplaceKeepsLength(s[1..], p, r);
      }
    }
  }

  /** A pattern with a character the string lacks does not occur in it. */
  lemma {:induction false} AbsentChar(s: string, p: string, c: char)
    requires c in p && c !in s
    ensures !Contains(s, p)
    decreases |s|
  {
    var k :| 0 <= k < |p| && p[k] == c;
    if |p| <= |s| {
      assert s[..|p|][k] != p[k] by {
        assert s[k] in s;
      }
      AbsentChar(s[1..], p, c);
    }
  }

  /** No occurrence of the pattern can start inside `b` when `b` lacks the
      pattern's second character and `t` does not start with it: `replace`
      copies `b` through. */
  lemma {:induction false} ReplaceKeepsHead(b: string, t: string, p: string, r: string)
    requires |p| >= 2 && p[1] !in b && (t == [] || t[0] != p[1])
    ensures ReplaceAll(b + t, p, r) == b + ReplaceAll(t, p, r)
    decreases |b|
  {
    if b == [] {
      assert b + t == t;
    } else if |b + t| >= |p| {
      var s := b + t;
      assert s[1] != p[1] by {
        if |b| >= 2 {
          assert s[1] == b[1] && b[1] in b;
        } else {
          assert s[1] == t[0];
        }
      }
      assert s[..|p|] != p by { assert s[..|p|][1] == s[1]; }
      assert p[1] !in b[1..] by {
        assert forall k :: 0 <= k < |b[1..]| ==> b[1..][k] == b[k + 1];
      }
      assert s[1..] == b[1..] + t;
      ReplaceKeepsHead(b[1..], t, p, r);
      assert ReplaceAll(s, p, r) == [s[0]] + ReplaceAll(b[1..] + t, p, r);
      assert b == [b[0]] + b[1..];
    } else {
      assert |t| < |p|;
    }
  }

  /** A string without the pattern stays without it once its first
      character is dropped, and does not start with it. */
  lemma AbsentTail(q: string, p: string)
    requires |q| >= |p| > 0 && !Contains(q, p)
    ensures q[..|p|] != p && !Contains(q[1..], p)
  {
  }

  /** When the pattern occurs exactly once, at the junction of `b` and `e`,
      `replace` swaps just that occurrence. */
  lemma {:induction false} ReplaceSingle(b: string, p: string, e: string, r: string)
    requires |p| > 0
    requires !Contains(b + p[..|p| - 1], p) && !Contains(e, p)
    ensures ReplaceAll(b + p + e, p, r) == b + r + e
    decreases |b|
  {
    var s := b + p + e;
    if b == [] {
      assert s[..|p|] == p && s[|p|..] == e;
      ReplaceAbsent(e, p, r);
    } else {
      var q := b + p[..|p| - 1];
      AbsentTail(q, p);
      assert s[..|p|] == q[..|p|];
      assert q[1..] == b[1..] + p[..|p| - 1];
      ReplaceSingle(b[1..], p, e, r);
      assert s[1..] == b[1..] + p + e;
      calc {
        ReplaceAll(s, p, r);
        [s[0]] + ReplaceAll(s[1..], p, r);
        [b[0]] + (b[1..] + r + e);
        b + r + e;
      }
    }
  }

  /** `sep.join(s.split(sep)) == s`. */
  lemma {:induction false} JoinSplit(s: string, sep: string)
    requires |sep| > 0
    ensures Join(Split(s, sep), sep) == s
    decreases |s|
  {
    if |s| >= |sep| {
      if s[..|sep|] == sep {
        JoinSplit(s[|sep|..], sep);
        assert Split(s, sep)[1..] == Split(s[|sep|..], sep);
        assert s == sep + s[|sep|..];
      } else {
        var rest := Split(s[1..], sep);
        JoinSplit(s[1..], sep);
        JoinConsFirst(s[0], rest, sep);
        assert s == [s[0]] + s[1..];
      }
    }
  }

  /** Prepending a character to the first part prepends it to the join. */
  lemma JoinConsFirst(c: char, parts: seq<string>, sep: string)
    requires |parts| > 0
    ensures Join([[c] + parts[0]] + parts[1..], sep) == [c] + Join(parts, sep)
  {
    var q := [[c] + parts[0]] + parts[1..];
    assert q[1..] == parts[1..];
    if |parts| > 1 {
      assert Join(q, sep) == ([c] + parts[0]) + sep + Join(parts[1..], sep);
    }
  }

  /** `s.replace(p, r) == r.join(s.split(p))`: replacing is splitting at the
      pattern and joining with the replacement. */
  lemma {:induction false} ReplaceIsJoinOfSplit(s: string, p: string, r: string)
    requires |p| > 0
    ensures ReplaceAll(s, p, r) == Join(Split(s, p), r)
    decreases |s|
  {
    if |s| >= |p| {
      if s[..|p|] == p {
        ReplaceIsJoinOfSplit(s[|p|..], p, r);
        assert Split(s, p)[1..] == Split(s[|p|..], p);
      } else {
        var rest := Split(s[1..], p);
        ReplaceIsJoinOfSplit(s[1..], p, r);
        JoinConsFirst(s[0], rest, r);
      }
    }
  }

  /** A string without the separator splits into itself alone. */
  lemma {:induction false} SplitAbsent(a: string, c: char)
    requires c !in a
    ensures Split(a, [c]) == [a]
    decreases |a|
  {
    if |a| >= 1 {
      assert a[0] in a;
      assert forall k :: 0 <= k < |a[1..]| ==> a[1..][k] in a;
      SplitAbsent(a[1..], c);
      assert a == [a[0]] + a[1..];
    }
  }

  /** Splitting after a separator-free field: the field, then the rest split. */
  lemma {:induction false} SplitAfterField(a: string, t: string, c: char)
    requires c !in a
    ensures Split(a + [c] + t, [c]) == [a] + Split(t, [c])
    decreases |a|
  {
    var s := a + [c] + t;
    if a == [] {
      assert s[..1] == [c] && s[1..] == t;
    } else {
      assert a[0] in a;
      assert s[0] == a[0] && s[..1][0] == s[0];
      assert s[1..] == a[1..] + [c] + t;
      assert forall k :: 0 <= k < |a[1..]| ==> a[1..][k] in a;
      SplitAfterField(a[1..], t, c);
      assert a == [a[0]] + a[1..];
    }
  }

  /** The first field of `s.split(c)` is the longest prefix of `s` free of `c`:
      it has no `c`, and it is either all of `s` or followed by a `c`. */
  lemma {:induction false} SplitFirstField(s: string, c: char)
    ensures var f := Split(s, [c])[0];
      c !in f && |f| <= |s| && f == s[..|f|] && (|f| < |s| ==> s[|f|] == c)
    decreases |s|
  {
    if |s| >= 1 && s[..1] != [c] {
      SplitFirstField(s[1..], c);
      var rest := Split(s[1..], [c]);
      assert Split(s, [c])[0] == [s[0]] + rest[0];
      assert s[0] != c;
    }
  }

  /** Removing one character with `replace(c, "")` keeps the others in order. */
  lemma {:induction false} ReplaceCharIsWithout(s: string, c: char)
    ensures ReplaceAll(s, [c], []) == Without(s, {c})
    decreases |s|
  {
    if |s| >= 1 {
      ReplaceCharIsWithout(s[1..], c);
      assert s[..1] == [c] <==> s[0] == c;
    }
  }

  /** Filtering twice is filtering once by both sets. */
  lemma {:induction false} WithoutTwice(s: string, a: set<char>, b: set<char>)
    ensures Without(Without(s, a), b) == Without(s, a + b)
    decreases |s|
  {
    if s != [] {
      WithoutTwice(s[1..], a, b);
      var head := if s[0] in a then [] else [s[0]];
      WithoutAppend(head, Without(s[1..], a), b);
    }
  }

  lemma {:induction false} WithoutAppend(x: string, y: string, b: set<char>)
    ensures Without(x + y, b) == Without(x, b) + Without(y, b)
    decreases |x|
  {
    if x == [] {
      assert x + y == y;
    } else {
      WithoutAppend(x[1..], y, b);
      assert (x + y)[1..] == x[1..] + y;
    }
  }

  /** Every character of the filtered string comes from `s` and is not in `bad`. */
  lemma {:induction false} WithoutExcludes(s: string, bad: set<char>)
    ensures forall k :: 0 <= k < |Without(s, bad)| ==>
      Without(s, bad)[k] !in bad && Without(s, bad)[k] in s
    decreases |s|
  {
    if s != [] {
      WithoutExcludes(s[1..], bad);
    }
  }

  // ---------------------------------------------------------------------------
  // Decimal integers: `%d` formatting and `int(...)` parsing
  // ---------------------------------------------------------------------------

  predicate IsDigit(c: char) {
    '0' <= c <= '9'
  }

  predicate AllDigits(s: string) {
    |s| > 0 && forall k :: 0 <= k < |s| ==> IsDigit(s[k])
  }

  function DigitChar(d: nat): (c: char)
    requires d < 10
    ensures IsDigit(c) && c as int - '0' as int == d
  {
    ('0' as int + d) as char
  }

  /** `%d` of a non-negative integer: its decimal digits, most significant first. */
  function FormatNat(n: nat): (s: string)
    ensures AllDigits(s)
    decreases n
  {
    if n < 10 then [DigitChar(n)] else FormatNat(n / 10) + [DigitChar(n % 10)]
  }

  /** `%d`. */
  function FormatInt(n: int): string {
    if n < 0 then "-" + FormatNat(-n) else FormatNat(n)
  }

  /** The value of a string of decimal digits. */
  function DigitsValue(s: string): nat
    requires forall k :: 0 <= k < |s| ==> IsDigit(s[k])
    decreases |s|
  {
    if s == [] then 0
    else
      assert IsDigit(s[|s| - 1]);
      DigitsValue(s[..|s| - 1]) * 10 + (s[|s| - 1] as int - '0' as int)
  }

  /** `int(s)` for an optional sign followed by ASCII digits; anything else is
      the `ValueError` case. */
  function ParseInt(s: string): Option<int> {
    if |s| > 0 && (s[0] == '+' || s[0] == '-') then
      if AllDigits(s[1..]) then
        Some(if s[0] == '-' then -(DigitsValue(s[1..]) as int) else DigitsValue(s[1..]))
      else None
    else if AllDigits(s) then Some(DigitsValue(s))
    else None
  }

  lemma {:induction false} DigitsOfFormat(n: nat)
    ensures DigitsValue(FormatNat(n)) == n
    decreases n
  {
    if n >= 10 {
      DigitsOfFormat(n / 10);
      var s := FormatNat(n);
      assert s[..|s| - 1] == FormatNat(n / 10);
    }
  }

  /** `int("%d" % n) == n`. */
  lemma ParseFormat(n: int)
    ensures ParseInt(FormatInt(n)) == Some(n)
  {
    if n < 0 {
      DigitsOfFormat(-n);
      assert FormatInt(n)[1..] == FormatNat(-n);
    } else {
      DigitsOfFormat(n);
    }
  }
}
