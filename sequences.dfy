/** Facts about integer sequences that both stages of the searcher rely on:
    orderings, Python's `sum`, `set` and `sorted`. */
module Sequences {

  predicate NonDecreasing(s: seq<int>)
  {
    forall i, j :: 0 <= i < j < |s| ==> s[i] <= s[j]
  }

  predicate StrictlyIncreasing(s: seq<int>)
  {
    forall i, j :: 0 <= i < j < |s| ==> s[i] < s[j]
  }

  /** Lexicographic "strictly before", the order Python uses on tuples. */
  predicate LexLess(a: seq<int>, b: seq<int>)
  {
    |b| > 0 && (|a| == 0 || a[0] < b[0] || (a[0] == b[0] && LexLess(a[1..], b[1..])))
  }

  /** Every earlier element is lexicographically before every later one, so
      in particular no element occurs twice. */
  predicate LexSorted(ss: seq<seq<int>>)
  {
    forall i, j :: 0 <= i < j < |ss| ==> LexLess(ss[i], ss[j])
  }

  /** Shorter first, then lexicographic: the order of sized generation. */
  predicate ShortLexLess(a: seq<int>, b: seq<int>)
  {
    |a| < |b| || (|a| == |b| && LexLess(a, b))
  }

  predicate ShortLexSorted(ss: seq<seq<int>>)
  {
    forall i, j :: 0 <= i < j < |ss| ==> ShortLexLess(ss[i], ss[j])
  }

  /** No sequence is lexicographically before itself. */
  lemma {:induction false} LexLessIrreflexive(a: seq<int>)
    ensures !LexLess(a, a)
  {
    if |a| > 0 {
      LexLessIrreflexive(a[1..]);
    }
  }

  /** No two sequences are each lexicographically before the other. */
  lemma {:induction false} LexLessAsymmetric(a: seq<int>, b: seq<int>)
    ensures !(LexLess(a, b) && LexLess(b, a))
  {
    if |a| > 0 && |b| > 0 && a[0] == b[0] {
      LexLessAsymmetric(a[1..], b[1..]);
    }
  }

  /** Two lexicographically sorted lists with the same elements are equal:
      a sorted list is determined by what it contains. */
  lemma {:induction false} LexSortedUnique(a: seq<seq<int>>, b: seq<seq<int>>)
    requires LexSorted(a) && LexSorted(b)
    requires forall p :: p in a <==> p in b
    ensures a == b
    decreases |a|
  {
    if |a| > 0 && |b| > 0 {
      assert a[0] in b && b[0] in a;
      var i :| 0 <= i < |b| && b[i] == a[0];
      var j :| 0 <= j < |a| && a[j] == b[0];
      LexLessAsymmetric(a[0], b[0]);
      LexLessIrreflexive(a[0]);
      assert a[0] == b[0];
      forall p ensures p in a[1..] <==> p in b[1..] {
        LexLessIrreflexive(p);
        if p in a[1..] {
          var k :| 0 <= k < |a[1..]| && a[1..][k] == p;
          assert a[k + 1] == p && p in b;
          var m :| 0 <= m < |b| && b[m] == p;
          assert m != 0;
          assert b[1..][m - 1] == p;
        }
        if p in b[1..] {
          var k :| 0 <= k < |b[1..]| && b[1..][k] == p;
          assert b[k + 1] == p && p in a;
          var m :| 0 <= m < |a| && a[m] == p;
          assert m != 0;
          assert a[1..][m - 1] == p;
        }
      }
      assert LexSorted(a[1..]) by {
        forall i, j | 0 <= i < j < |a[1..]| ensures LexLess(a[1..][i], a[1..][j]) {
          assert a[1..][i] == a[i + 1] && a[1..][j] == a[j + 1];
        }
      }
      assert LexSorted(b[1..]) by {
        forall i, j | 0 <= i < j < |b[1..]| ensures LexLess(b[1..][i], b[1..][j]) {
          assert b[1..][i] == b[i + 1] && b[1..][j] == b[j + 1];
        }
      }
      LexSortedUnique(a[1..], b[1..]);
      assert a == [a[0]] + a[1..] && b == [b[0]] + b[1..];
    } else {
      HeadIsElement(a);
      HeadIsElement(b);
    }
  }

  lemma HeadIsElement(a: seq<seq<int>>)
    ensures |a| > 0 ==> a[0] in a
  {
  }

  /** A sorted list never lists a sequence twice. */
  lemma LexSortedDistinct(ss: seq<seq<int>>, i: int, j: int)
    requires LexSorted(ss) && 0 <= i < j < |ss|
    ensures ss[i] != ss[j]
  {
    LexLessIrreflexive(ss[i]);
  }

  /** Two sequences that agree before position `k` and differ first at `k`
      are ordered by their elements at `k`. */
  lemma {:induction false} LexLessAt(a: seq<int>, b: seq<int>, k: nat)
    requires k < |a| && k < |b| && a[..k] == b[..k] && a[k] < b[k]
    ensures LexLess(a, b)
  {
    if k > 0 {
      assert a[0] == a[..k][0] == b[..k][0] == b[0];
      assert a[1..][..k - 1] == a[1..k] == a[..k][1..];
      assert b[1..][..k - 1] == b[1..k] == b[..k][1..];
      LexLessAt(a[1..], b[1..], k - 1);
    }
  }

  /** Putting the same element in front keeps the order. */
  lemma LexLessCons(x: int, a: seq<int>, b: seq<int>)
    requires LexLess(a, b)
    ensures LexLess([x] + a, [x] + b)
  {
    assert ([x] + a)[1..] == a;
    assert ([x] + b)[1..] == b;
  }

  /** Two sorted lists, all of the first before all of the second, make a
      sorted list. */
  lemma LexSortedAppend(xs: seq<seq<int>>, ys: seq<seq<int>>)
    requires LexSorted(xs) && LexSorted(ys)
    requires forall a, b :: a in xs && b in ys ==> LexLess(a, b)
    ensures LexSorted(xs + ys)
  {
    forall i, j | 0 <= i < j < |xs + ys|
      ensures LexLess((xs + ys)[i], (xs + ys)[j])
    {
      if j < |xs| {
      } else if i >= |xs| {
        assert (xs + ys)[i] == ys[i - |xs|] && (xs + ys)[j] == ys[j - |xs|];
      } else {
        assert (xs + ys)[i] in xs && (xs + ys)[j] in ys;
      }
    }
  }

  /** Python's `sum` on a tuple of integers. */
  function Sum(s: seq<int>): int
  {
    if |s| == 0 then 0 else Sum(s[..|s| - 1]) + s[|s| - 1]
  }

  /** Python's `set(s)`. */
  function Elements(s: seq<int>): (r: set<int>)
    ensures forall x :: x in r <==> x in s
  {
    if |s| == 0 then {}
    else
      var init := s[..|s| - 1];
      assert s == init + [s[|s| - 1]];
      Elements(init) + {s[|s| - 1]}
  }

  /** Inserts `x` into a sorted sequence in front of the first larger element. */
  function Insert(x: int, s: seq<int>): (r: seq<int>)
    requires NonDecreasing(s)
    ensures NonDecreasing(r)
    ensures multiset(r) == multiset(s) + multiset{x}
    ensures |r| == |s| + 1
  {
    if |s| == 0 then [x]
    else if x <= s[0] then [x] + s
    else
      assert s == [s[0]] + s[1..];
      TailSorted(s);
      var rest := Insert(x, s[1..]);
      LowerBoundKept(s[0], x, s[1..], rest);
      ConsSorted(s[0], rest);
      [s[0]] + rest
  }

  /** The tail of a sorted sequence is sorted and bounded below by its head. */
  lemma TailSorted(s: seq<int>)
    requires NonDecreasing(s) && |s| > 0
    ensures NonDecreasing(s[1..])
    ensures forall k :: 0 <= k < |s[1..]| ==> s[0] <= s[1..][k]
  {
    forall i, j | 0 <= i < j < |s[1..]| ensures s[1..][i] <= s[1..][j] {
      assert s[1..][i] == s[i + 1] && s[1..][j] == s[j + 1];
    }
  }

  /** A lower bound of `t` and of `x` bounds every arrangement of `t` with `x`. */
  lemma LowerBoundKept(a: int, x: int, t: seq<int>, r: seq<int>)
    requires a <= x && forall k :: 0 <= k < |t| ==> a <= t[k]
    requires multiset(r) == multiset(t) + multiset{x}
    ensures forall k :: 0 <= k < |r| ==> a <= r[k]
  {
    forall k | 0 <= k < |r| ensures a <= r[k] {
      assert r[k] in multiset(r);
      if r[k] != x {
        assert r[k] in multiset(t);
        var m :| 0 <= m < |t| && t[m] == r[k];
      }
    }
  }

  /** A lower bound put in front of a sorted sequence keeps it sorted. */
  lemma ConsSorted(a: int, r: seq<int>)
    requires NonDecreasing(r) && forall k :: 0 <= k < |r| ==> a <= r[k]
    ensures NonDecreasing([a] + r)
  {
    forall i, j | 0 <= i < j < |[a] + r| ensures ([a] + r)[i] <= ([a] + r)[j] {
      assert ([a] + r)[j] == r[j - 1];
      assert i > 0 ==> ([a] + r)[i] == r[i - 1];
    }
  }

  /** Python's `sorted` on a list of integers: the ascending arrangement of
      the same elements. */
  function SortAscending(s: seq<int>): (r: seq<int>)
    ensures NonDecreasing(r)
    ensures multiset(r) == multiset(s)
    ensures |r| == |s|
  {
    if |s| == 0 then []
    else
      assert s == s[..|s| - 1] + [s[|s| - 1]];
      Insert(s[|s| - 1], SortAscending(s[..|s| - 1]))
  }

  /** Sorting two integers that are already in order leaves them as they
      are. */
  lemma SortedPair(a: int, b: int)
    requires a < b
    ensures SortAscending([a, b]) == [a, b]
  {
    var r := SortAscending([a, b]);
    assert r == [r[0], r[1]];
    assert multiset{r[0], r[1]} == multiset{a, b};
    assert r[0] in multiset{a, b} && r[1] in multiset{a, b};
  }

  /** The sum of a one-element sequence is its element. */
  lemma SumOfOne(p: seq<int>)
    requires |p| == 1
    ensures Sum(p) == p[0]
  {
    assert p[..0] == [];
  }

  /** The first two entries of a sorted list differ. */
  lemma DistinctPair(ss: seq<seq<int>>)
    requires LexSorted(ss)
    ensures |ss| >= 2 ==> ss[0] != ss[1]
  {
    if |ss| >= 2 {
      LexSortedDistinct(ss, 0, 1);
    }
  }
}
