/**
 * `files.sort()` on a directory listing (qiime_analysis.py:172-173, 217-218,
 * 261-263, 308-309, 351-352): Python orders strings lexicographically by code
 * point. The sort is written here as an insertion sort; since that order is
 * total and antisymmetric, every sorted permutation of a listing is the same
 * sequence (SortUnique), so this is the list `sort` produces.
 */
module Listing {

  /** Python's `a <= b` on `str`. */
  predicate LexLe(a: string, b: string)
    decreases |a|
  {
    |a| == 0 || (|b| > 0 && (a[0] < b[0] || (a[0] == b[0] && LexLe(a[1..], b[1..]))))
  }

  lemma {:induction false} LexTotal(a: string, b: string)
    ensures LexLe(a, b) || LexLe(b, a)
    decreases |a|
  {
    if |a| > 0 && |b| > 0 && a[0] == b[0] {
      LexTotal(a[1..], b[1..]);
    }
  }

  lemma {:induction false} LexAntisymmetric(a: string, b: string)
    requires LexLe(a, b) && LexLe(b, a)
    ensures a == b
    decreases |a|
  {
    if |a| > 0 {
      LexAntisymmetric(a[1..], b[1..]);
      assert a == [a[0]] + a[1..] && b == [b[0]] + b[1..];
    }
  }

  lemma {:induction false} LexTransitive(a: string, b: string, c: string)
    requires LexLe(a, b) && LexLe(b, c)
    ensures LexLe(a, c)
    decreases |a|
  {
    if |a| > 0 && a[0] == b[0] && b[0] == c[0] {
      LexTransitive(a[1..], b[1..], c[1..]);
    }
  }

  /** Every element is at most every later one. */
  ghost predicate Sorted(s: seq<string>) {
    forall i, j :: 0 <= i < j < |s| ==> LexLe(s[i], s[j])
  }

  /** `x` is at most every element of `s`. */
  ghost predicate Below(x: string, s: seq<string>) {
    forall k :: 0 <= k < |s| ==> LexLe(x, s[k])
  }

  lemma BelowOfMultiset(x: string, s: seq<string>, t: seq<string>)
    requires Below(x, s) && multiset(t) <= multiset(s)
    ensures Below(x, t)
  {
    forall k | 0 <= k < |t| ensures LexLe(x, t[k]) {
      assert t[k] in multiset(t);
      assert t[k] in s;
    }
  }

  lemma ConsSorted(x: string, s: seq<string>)
    requires Sorted(s) && Below(x, s)
    ensures Sorted([x] + s)
  {
    var r := [x] + s;
    forall i, j | 0 <= i < j < |r| ensures LexLe(r[i], r[j]) {
      if i > 0 {
        assert r[i] == s[i - 1] && r[j] == s[j - 1];
      }
    }
  }

  /** Insert `x` into a sorted sequence at its place. */
  function Insert(x: string, s: seq<string>): (r: seq<string>)
    requires Sorted(s)
    ensures Sorted(r) && multiset(r) == multiset(s) + multiset{x}
    decreases |s|
  {
    if s == [] then [x]
    else if LexLe(x, s[0]) then
      assert Below(x, s) by {
        forall k | 0 <= k < |s| ensures LexLe(x, s[k]) {
          if k > 0 { LexTransitive(x, s[0], s[k]); }
        }
      }
      ConsSorted(x, s);
      [x] + s
    else
      var tail := Insert(x, s[1..]);
      assert s == [s[0]] + s[1..];
      assert Below(s[0], tail) by {
        LexTotal(x, s[0]);
        assert Below(s[0], s[1..] + [x]);
        assert multiset(tail) == multiset(s[1..] + [x]);
        BelowOfMultiset(s[0], s[1..] + [x], tail);
      }
      ConsSorted(s[0], tail);
      [s[0]] + tail
  }

  /** `sorted(s)`. */
  function Sort(s: seq<string>): (r: seq<string>)
    ensures Sorted(r) && multiset(r) == multiset(s)
    decreases |s|
  {
    if s == [] then []
    else
      assert s == [s[0]] + s[1..];
      Insert(s[0], Sort(s[1..]))
  }

  /** The head of a sorted sequence is at most each of its elements. */
  lemma HeadIsLeast(s: seq<string>, x: string)
    requires Sorted(s) && x in s
    ensures LexLe(s[0], x)
  {
    var i :| 0 <= i < |s| && s[i] == x;
    if i == 0 {
      LexTotal(x, x);
    }
  }

  lemma SortedTail(s: seq<string>)
    requires Sorted(s) && s != []
    ensures Sorted(s[1..])
  {
    forall i, j | 0 <= i < j < |s[1..]| ensures LexLe(s[1..][i], s[1..][j]) {
      assert s[1..][i] == s[i + 1] && s[1..][j] == s[j + 1];
    }
  }

  /** Two sorted sequences with the same elements are equal, so `Sort` is the
      only possible result of sorting. */
  lemma {:induction false} SortUnique(s: seq<string>, t: seq<string>)
    requires Sorted(s) && Sorted(t) && multiset(s) == multiset(t)
    ensures s == t
    decreases |s|
  {
    if s != [] {
      assert |t| == |s| by {
        assert |multiset(t)| == |multiset(s)|;
      }
      assert s[0] in multiset(t) && t[0] in multiset(s);
      HeadIsLeast(t, s[0]);
      HeadIsLeast(s, t[0]);
      LexAntisymmetric(s[0], t[0]);
      assert s == [s[0]] + s[1..] && t == [t[0]] + t[1..];
      assert multiset(s[1..]) == multiset(t[1..]) by {
        assert multiset(s[1..]) == multiset(s) - multiset{s[0]};
        assert multiset(t[1..]) == multiset(t) - multiset{t[0]};
      }
      SortedTail(s);
      SortedTail(t);
      SortUnique(s[1..], t[1..]);
    }
  }
}
