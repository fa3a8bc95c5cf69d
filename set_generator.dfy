/** The first stage of the searcher, `generate_sets`: a backtracking
    enumeration of duration sets that extend the sorted forced durations
    one element at a time, each new element confined to a window computed
    from the previous one. */
module SetGenerator {
  import opened Utils
  import opened Settings
  import opened Sequences

  function Max3(a: int, b: int, c: int): int
  {
    if a >= b && a >= c then a else if b >= c then b else c
  }

  function Min(a: int, b: int): int
  {
    if a <= b then a else b
  }

  /** The lowest duration that may follow `current`: the start of the
      duration range, raised by the minimum difference and the minimum
      multiplier when `current` has a last element. */
  function Lower(cfg: SearchConfig, current: seq<int>): int
  {
    if |current| > 0 then
      var last := current[|current| - 1];
      Max3(cfg.durations.start, last + cfg.minDiff, FloorMul(last, cfg.minMult))
    else
      cfg.durations.start
  }

  /** The highest duration that may follow `current`: the end of the
      duration range, lowered by the maximum multiplier when `current` has
      a last element. */
  function Upper(cfg: SearchConfig, current: seq<int>): int
  {
    if |current| > 0 then
      var last := current[|current| - 1];
      Min(cfg.durations.end, CeilMul(last, cfg.maxMult))
    else
      cfg.durations.end
  }

  /** `b` may be the very first duration of a set: it lies in the bare range. */
  predicate Starts(cfg: SearchConfig, b: int)
  {
    cfg.durations.start <= b <= cfg.durations.end
  }

  /** `b` may be appended after `a`: in the range, at least `minDiff` above
      `a`, not below floor(a * minMult) and not above ceil(a * maxMult). */
  predicate Follows(cfg: SearchConfig, a: int, b: int)
  {
    && Starts(cfg, b)
    && a + cfg.minDiff <= b
    && FloorMul(a, cfg.minMult) <= b
    && b <= CeilMul(a, cfg.maxMult)
  }

  /** The element at position `i` of `s` is admissible after what precedes it. */
  predicate Admissible(cfg: SearchConfig, s: seq<int>, i: int)
    requires 0 <= i < |s|
  {
    if i == 0 then Starts(cfg, s[0]) else Follows(cfg, s[i - 1], s[i])
  }

  /** `s` is `prefix` followed by admissible elements only. */
  ghost predicate ValidTail(cfg: SearchConfig, prefix: seq<int>, s: seq<int>)
  {
    && |prefix| <= |s|
    && s[..|prefix|] == prefix
    && forall i :: |prefix| <= i < |s| ==> Admissible(cfg, s, i)
  }

  /** The window [Lower, Upper] is exactly the set of admissible next
      elements. */
  lemma WindowMeans(cfg: SearchConfig, current: seq<int>, b: int)
    ensures Lower(cfg, current) <= b <= Upper(cfg, current) <==>
      if |current| == 0 then Starts(cfg, b) else Follows(cfg, current[|current| - 1], b)
  {
  }

  /** Every completion of `current` passes through the window: its next
      element lies in [Lower, Upper]. So a branch whose window is empty has
      no completion, and pruning it loses nothing. */
  lemma CompletionInWindow(cfg: SearchConfig, current: seq<int>, s: seq<int>)
    requires ValidTail(cfg, current, s) && |s| > |current|
    ensures Lower(cfg, current) <= s[|current|] <= Upper(cfg, current)
  {
    var n := |current|;
    assert Admissible(cfg, s, n);
    if n > 0 {
      assert s[n - 1] == s[..n][n - 1] == current[n - 1];
    }
    WindowMeans(cfg, current, s[n]);
  }

  /** The nested `generate_next_durations_with_append`: every sequence that
      extends `current` by `appendCount` admissible elements, depth first,
      smaller next elements first. */
  function Extend(cfg: SearchConfig, current: seq<int>, appendCount: int): seq<seq<int>>
    decreases appendCount, 1, 0
  {
    if appendCount <= 0 then
      [current]
    else
      var lo := Lower(cfg, current);
      var hi := Upper(cfg, current);
      if lo > hi then []
      else ExtendEach(cfg, current, RangeInclusive(lo, hi, 1), appendCount)
  }

  /** The `for next_duration in ...` loop with `yield from`: the extensions
      through each candidate in `nexts`, in order. */
  function ExtendEach(cfg: SearchConfig, current: seq<int>, nexts: seq<int>, appendCount: int): seq<seq<int>>
    requires appendCount > 0
    decreases appendCount, 0, |nexts|
  {
    if |nexts| == 0 then []
    else Extend(cfg, current + [nexts[0]], appendCount - 1) + ExtendEach(cfg, current, nexts[1..], appendCount)
  }

  /** Appending an element of the window to `current` keeps the tail valid. */
  lemma ValidTailStep(cfg: SearchConfig, current: seq<int>, v: int, s: seq<int>)
    requires Lower(cfg, current) <= v <= Upper(cfg, current)
    requires ValidTail(cfg, current + [v], s)
    ensures ValidTail(cfg, current, s) && s[|current|] == v
  {
    WindowMeans(cfg, current, v);
    var n := |current|;
    assert s[..n] == s[..n + 1][..n] == current;
    assert s[n] == s[..n + 1][n] == v;
    assert n > 0 ==> s[n - 1] == current[n - 1];
    assert Admissible(cfg, s, n);
  }

  /** Every generated sequence has the requested length and a valid tail. */
  lemma {:induction false} ExtendSound(cfg: SearchConfig, current: seq<int>, appendCount: int, s: seq<int>)
    requires s in Extend(cfg, current, appendCount)
    ensures |s| == |current| + (if appendCount > 0 then appendCount else 0)
    ensures ValidTail(cfg, current, s)
    decreases appendCount, 1, 0
  {
    if appendCount <= 0 {
      assert s == current;
      assert s[..|current|] == current;
    } else {
      var lo := Lower(cfg, current);
      var hi := Upper(cfg, current);
      ExtendEachSound(cfg, current, RangeInclusive(lo, hi, 1), appendCount, s);
    }
  }

  lemma {:induction false} ExtendEachSound(cfg: SearchConfig, current: seq<int>, nexts: seq<int>, appendCount: int, s: seq<int>)
    requires appendCount > 0
    requires forall i :: 0 <= i < |nexts| ==> Lower(cfg, current) <= nexts[i] <= Upper(cfg, current)
    requires s in ExtendEach(cfg, current, nexts, appendCount)
    ensures |s| == |current| + appendCount && ValidTail(cfg, current, s)
    ensures s[|current|] in nexts
    decreases appendCount, 0, |nexts|
  {
    var first := Extend(cfg, current + [nexts[0]], appendCount - 1);
    var rest := ExtendEach(cfg, current, nexts[1..], appendCount);
    assert s in first || s in rest;
    if s in first {
      ExtendSound(cfg, current + [nexts[0]], appendCount - 1, s);
      ValidTailStep(cfg, current, nexts[0], s);
    } else {
      ExtendEachSound(cfg, current, nexts[1..], appendCount, s);
    }
  }

  /** Every sequence extending `current` by `appendCount` admissible
      elements is generated. */
  lemma {:induction false} ExtendComplete(cfg: SearchConfig, current: seq<int>, appendCount: nat, s: seq<int>)
    requires |s| == |current| + appendCount && ValidTail(cfg, current, s)
    ensures s in Extend(cfg, current, appendCount)
    decreases appendCount, 1, 0
  {
    var n := |current|;
    if appendCount == 0 {
      assert s == s[..n];
    } else {
      var v := s[n];
      assert Admissible(cfg, s, n);
      assert n > 0 ==> s[n - 1] == s[..n][n - 1];
      WindowMeans(cfg, current, v);
      var lo := Lower(cfg, current);
      var hi := Upper(cfg, current);
      assert s[..n + 1] == current + [v];
      ExtendEachComplete(cfg, current, RangeInclusive(lo, hi, 1), appendCount, s);
    }
  }

  lemma {:induction false} ExtendEachComplete(cfg: SearchConfig, current: seq<int>, nexts: seq<int>, appendCount: int, s: seq<int>)
    requires appendCount > 0 && |s| == |current| + appendCount
    requires ValidTail(cfg, current + [s[|current|]], s) && s[|current|] in nexts
    ensures s in ExtendEach(cfg, current, nexts, appendCount)
    decreases appendCount, 0, |nexts|
  {
    if nexts[0] == s[|current|] {
      ExtendComplete(cfg, current + [nexts[0]], appendCount - 1, s);
    } else {
      assert s[|current|] in nexts[1..];
      ExtendEachComplete(cfg, current, nexts[1..], appendCount, s);
    }
  }

  /** The output is in strictly increasing lexicographic order, so it holds
      each sequence once. */
  lemma {:induction false} ExtendSorted(cfg: SearchConfig, current: seq<int>, appendCount: int)
    ensures LexSorted(Extend(cfg, current, appendCount))
    decreases appendCount, 1, 0
  {
    if appendCount > 0 {
      var lo := Lower(cfg, current);
      var hi := Upper(cfg, current);
      if lo <= hi {
        ExtendEachSorted(cfg, current, RangeInclusive(lo, hi, 1), appendCount);
      }
    }
  }

  lemma {:induction false} ExtendEachSorted(cfg: SearchConfig, current: seq<int>, nexts: seq<int>, appendCount: int)
    requires appendCount > 0
    requires StrictlyIncreasing(nexts)
    requires forall i :: 0 <= i < |nexts| ==> Lower(cfg, current) <= nexts[i] <= Upper(cfg, current)
    ensures LexSorted(ExtendEach(cfg, current, nexts, appendCount))
    decreases appendCount, 0, |nexts|
  {
    if |nexts| > 0 {
      var n := |current|;
      var first := Extend(cfg, current + [nexts[0]], appendCount - 1);
      var rest := ExtendEach(cfg, current, nexts[1..], appendCount);
      ExtendSorted(cfg, current + [nexts[0]], appendCount - 1);
      ExtendEachSorted(cfg, current, nexts[1..], appendCount);
      forall a, b | a in first && b in rest
        ensures LexLess(a, b)
      {
        ExtendSound(cfg, current + [nexts[0]], appendCount - 1, a);
        ValidTailStep(cfg, current, nexts[0], a);
        ExtendEachSound(cfg, current, nexts[1..], appendCount, b);
        LexLessAt(a, b, n);
      }
      LexSortedAppend(first, rest);
    }
  }

  /** The sets of one size: nothing when the forced durations alone are
      already longer, the sorted forced durations alone when they have
      exactly that size, and otherwise their extensions. */
  function SetsOfSize(cfg: SearchConfig, setSize: int): seq<seq<int>>
  {
    var appendCount := setSize - |cfg.forcedPrefix|;
    if appendCount < 0 then []
    else if appendCount == 0 then [SortAscending(cfg.forcedPrefix)]
    else Extend(cfg, SortAscending(cfg.forcedPrefix), appendCount)
  }

  /** The outer `for set_size in ...` loop, one size after the other. */
  function SetsForSizes(cfg: SearchConfig, sizes: seq<int>): seq<seq<int>>
  {
    if |sizes| == 0 then []
    else SetsOfSize(cfg, sizes[0]) + SetsForSizes(cfg, sizes[1..])
  }

  /** `generate_sets`, with the generator's output materialised. */
  function GenerateSets(cfg: SearchConfig): seq<seq<int>>
  {
    SetsForSizes(cfg, RangeInclusiveTuple(cfg.setSize))
  }

  /** A duration set of the configuration: its size is in the size range,
      it starts with the sorted forced durations and every later element is
      admissible after its predecessor. */
  ghost predicate IsDurationSet(cfg: SearchConfig, s: seq<int>)
  {
    InRangeInclusiveTuple(|s|, cfg.setSize) && ValidTail(cfg, SortAscending(cfg.forcedPrefix), s)
  }

  /** A sequence as long as `prefix` has a valid tail exactly when it is
      `prefix` itself. */
  lemma OnlyPrefix(cfg: SearchConfig, prefix: seq<int>, s: seq<int>)
    requires |s| == |prefix|
    ensures ValidTail(cfg, prefix, s) <==> s == prefix
  {
    assert s[..|prefix|] == s;
    assert prefix[..|prefix|] == prefix;
  }

  /** The sets of one size are exactly the valid extensions of the sorted
      forced durations to that size. */
  lemma SetsOfSizeExact(cfg: SearchConfig, setSize: int, s: seq<int>)
    ensures s in SetsOfSize(cfg, setSize) <==>
      |s| == setSize && ValidTail(cfg, SortAscending(cfg.forcedPrefix), s)
  {
    var sorted := SortAscending(cfg.forcedPrefix);
    var appendCount := setSize - |cfg.forcedPrefix|;
    if appendCount == 0 {
      if |s| == setSize {
        OnlyPrefix(cfg, sorted, s);
      }
    } else if appendCount > 0 {
      if s in SetsOfSize(cfg, setSize) {
        ExtendSound(cfg, sorted, appendCount, s);
      }
      if |s| == setSize && ValidTail(cfg, sorted, s) {
        ExtendComplete(cfg, sorted, appendCount, s);
      }
    }
  }

  lemma {:induction false} SetsForSizesExact(cfg: SearchConfig, sizes: seq<int>, s: seq<int>)
    ensures s in SetsForSizes(cfg, sizes) <==>
      |s| in sizes && ValidTail(cfg, SortAscending(cfg.forcedPrefix), s)
  {
    if |sizes| > 0 {
      SetsOfSizeExact(cfg, sizes[0], s);
      SetsForSizesExact(cfg, sizes[1..], s);
      assert sizes == [sizes[0]] + sizes[1..];
    }
  }

  /** Soundness and completeness of `generate_sets`: it yields exactly the
      duration sets of the configuration. */
  lemma GenerateSetsExact(cfg: SearchConfig, s: seq<int>)
    ensures s in GenerateSets(cfg) <==> IsDurationSet(cfg, s)
  {
    SetsForSizesExact(cfg, RangeInclusiveTuple(cfg.setSize), s);
  }

  lemma {:induction false} SetsForSizesOrdered(cfg: SearchConfig, sizes: seq<int>)
    requires StrictlyIncreasing(sizes)
    ensures ShortLexSorted(SetsForSizes(cfg, sizes))
  {
    if |sizes| > 0 {
      var here := SetsOfSize(cfg, sizes[0]);
      var later := SetsForSizes(cfg, sizes[1..]);
      SetsForSizesOrdered(cfg, sizes[1..]);
      var appendCount := sizes[0] - |cfg.forcedPrefix|;
      if appendCount > 0 {
        ExtendSorted(cfg, SortAscending(cfg.forcedPrefix), appendCount);
      }
      assert LexSorted(here);
      forall s | s in here ensures |s| == sizes[0] {
        SetsOfSizeExact(cfg, sizes[0], s);
      }
      forall s | s in later ensures |s| > sizes[0] {
        SetsForSizesExact(cfg, sizes[1..], s);
        var k :| 0 <= k < |sizes[1..]| && sizes[1..][k] == |s|;
        assert sizes[k + 1] == |s|;
      }
      forall i, j | 0 <= i < j < |here + later|
        ensures ShortLexLess((here + later)[i], (here + later)[j])
      {
        if j < |here| {
        } else if i >= |here| {
          assert (here + later)[i] == later[i - |here|] && (here + later)[j] == later[j - |here|];
        } else {
          assert (here + later)[i] in here && (here + later)[j] in later;
        }
      }
    }
  }

  /** Sets come out size by size, increasing, and within one size in
      increasing lexicographic order; hence no set is produced twice. */
  lemma GenerateSetsOrdered(cfg: SearchConfig)
    ensures ShortLexSorted(GenerateSets(cfg))
  {
    SetsForSizesOrdered(cfg, RangeInclusiveTuple(cfg.setSize));
  }

  /** No set is generated twice. */
  lemma GeneratedOnce(cfg: SearchConfig, i: int, j: int)
    requires 0 <= i < j < |GenerateSets(cfg)|
    ensures GenerateSets(cfg)[i] != GenerateSets(cfg)[j]
  {
    GenerateSetsOrdered(cfg);
    LexLessIrreflexive(GenerateSets(cfg)[i]);
  }

  /** The sorted forced durations are generated exactly when their length is
      an allowed size, and they are then the only set of that size; no set
      is shorter than the forced durations, and all start with them. */
  lemma ForcedPrefixSets(cfg: SearchConfig)
    ensures SortAscending(cfg.forcedPrefix) in GenerateSets(cfg) <==>
      InRangeInclusiveTuple(|cfg.forcedPrefix|, cfg.setSize)
    ensures forall s :: s in GenerateSets(cfg) ==>
      |s| >= |cfg.forcedPrefix| && s[..|cfg.forcedPrefix|] == SortAscending(cfg.forcedPrefix)
    ensures forall s :: s in GenerateSets(cfg) && |s| == |cfg.forcedPrefix| ==>
      s == SortAscending(cfg.forcedPrefix)
  {
    var sorted := SortAscending(cfg.forcedPrefix);
    GenerateSetsExact(cfg, sorted);
    assert sorted[..|sorted|] == sorted;
    forall s | s in GenerateSets(cfg)
      ensures |s| >= |sorted| && s[..|sorted|] == sorted
      ensures |s| == |sorted| ==> s == sorted
    {
      GenerateSetsExact(cfg, s);
      assert |s| == |sorted| ==> s == s[..|sorted|];
    }
  }

  /** From steps between neighbours to the order of all pairs. */
  lemma {:induction false} NeighboursToPairs(s: seq<int>, k: int)
    requires forall j :: 0 < j < |s| ==> s[j - 1] <= s[j]
    requires forall j :: 0 < j < |s| && k <= j ==> s[j - 1] < s[j]
    ensures NonDecreasing(s)
    ensures forall i, j :: 0 <= i < j < |s| && k <= j ==> s[i] < s[j]
  {
    if |s| > 1 {
      var t := s[..|s| - 1];
      NeighboursToPairs(t, k);
      var last := |s| - 1;
      assert forall i :: 0 <= i < last ==> s[i] == t[i];
      assert forall i :: 0 <= i < last ==> s[i] <= s[last - 1];
    }
  }

  /** With a minimum difference of at least 1 every set is sorted from low to
      high, as the docstring of `generate_sets` promises, and strictly
      increasing from the first appended element on. */
  lemma GeneratedSetsIncrease(cfg: SearchConfig, s: seq<int>)
    requires cfg.minDiff >= 1 && s in GenerateSets(cfg)
    ensures NonDecreasing(s)
    ensures forall i, j :: 0 <= i < j < |s| && |cfg.forcedPrefix| <= j ==> s[i] < s[j]
  {
    GenerateSetsExact(cfg, s);
    var sorted := SortAscending(cfg.forcedPrefix);
    var n := |sorted|;
    forall j | 0 < j < |s| ensures s[j - 1] <= s[j] && (n <= j ==> s[j - 1] < s[j]) {
      if n <= j {
        assert Admissible(cfg, s, j);
      } else {
        assert s[j - 1] == sorted[j - 1] && s[j] == sorted[j];
      }
    }
    NeighboursToPairs(s, n);
  }

  /** When the sorted forced durations increase strictly themselves, every
      generated set does, so its durations are pairwise distinct. */
  lemma GeneratedStrict(cfg: SearchConfig, s: seq<int>)
    requires cfg.minDiff >= 1 && StrictlyIncreasing(SortAscending(cfg.forcedPrefix))
    requires s in GenerateSets(cfg)
    ensures StrictlyIncreasing(s)
  {
    GeneratedSetsIncrease(cfg, s);
    ForcedPrefixSets(cfg);
    var sorted := SortAscending(cfg.forcedPrefix);
    var n := |cfg.forcedPrefix|;
    forall i, j | 0 <= i < j < |s| ensures s[i] < s[j] {
      if j < n {
        assert s[i] == s[..n][i] == sorted[i];
        assert s[j] == s[..n][j] == sorted[j];
      }
    }
  }
}
