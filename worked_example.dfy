/** The example in the header of the searcher: with the shipped settings
    the set (1, 2, 4, 7, 10, 15) is generated, and its pools of length 4
    leave exactly the buckets of sums 18, 19 and 20. */
module WorkedExample {
  import opened Utils
  import opened Settings
  import opened Sequences
  import opened SetGenerator
  import opened PoolAnalyzer

  const ExampleSet: seq<int> := [1, 2, 4, 7, 10, 15]

  const Pools18: seq<seq<int>> := [[1, 1, 1, 15], [2, 2, 4, 10], [2, 2, 7, 7]]
  const Pools19: seq<seq<int>> := [[1, 1, 2, 15], [1, 1, 7, 10], [1, 4, 4, 10], [1, 4, 7, 7], [4, 4, 4, 7]]
  const Pools20: seq<seq<int>> := [[1, 2, 2, 15], [1, 2, 7, 10], [2, 4, 4, 10], [2, 4, 7, 7]]

  /** The bucket the header lists for a sum, or nothing. */
  function Listed(t: int): (r: seq<seq<int>>)
    ensures r != [] <==> 18 <= t <= 20
  {
    if t == 18 then Pools18 else if t == 19 then Pools19 else if t == 20 then Pools20 else []
  }

  /** The sum of a pool of four. */
  lemma SumOfFour(p: seq<int>)
    requires |p| == 4
    ensures Sum(p) == p[0] + p[1] + p[2] + p[3]
  {
    var p3 := p[..3];
    var p2 := p3[..2];
    var p1 := p2[..1];
    assert p1[..0] == [];
    assert Sum(p1) == p[0];
    assert Sum(p2) == Sum(p1) + p[1];
    assert Sum(p3) == Sum(p2) + p[2];
  }

  /** Two pools of four that first differ at some position are ordered by
      the elements there. */
  lemma LexLessOfFour(a: seq<int>, b: seq<int>)
    requires |a| == 4 && |b| == 4
    requires || a[0] < b[0]
             || (a[0] == b[0] && a[1] < b[1])
             || (a[0] == b[0] && a[1] == b[1] && a[2] < b[2])
             || (a[0] == b[0] && a[1] == b[1] && a[2] == b[2] && a[3] < b[3])
    ensures LexLess(a, b)
  {
    if a[0] < b[0] {
      LexLessAt(a, b, 0);
    } else if a[1] < b[1] {
      assert a[..1] == b[..1];
      LexLessAt(a, b, 1);
    } else if a[2] < b[2] {
      assert a[..2] == b[..2];
      LexLessAt(a, b, 2);
    } else {
      assert a[..3] == b[..3];
      LexLessAt(a, b, 3);
    }
  }

  /** A pool the enumeration can produce with sum `t`. */
  ghost predicate Candidate(p: seq<int>, t: int)
  {
    |p| == 4 && NonDecreasing(p) && (forall x :: x in p ==> InExampleSet(x)) && Sum(p) == t
  }

  /** `xs` is the example set, given element by element. */
  predicate IsExampleSet(xs: seq<int>)
  {
    |xs| == 6 && xs[0] == 1 && xs[1] == 2 && xs[2] == 4 && xs[3] == 7 && xs[4] == 10 && xs[5] == 15
  }

  /** The values of the example set, and that it increases strictly. */
  lemma ExampleMembers(xs: seq<int>)
    requires IsExampleSet(xs)
    ensures forall x :: x in xs <==> InExampleSet(x)
    ensures StrictlyIncreasing(xs)
  {
    forall x | InExampleSet(x) ensures x in xs {
      var k := if x == 1 then 0 else if x == 2 then 1 else if x == 4 then 2
               else if x == 7 then 3 else if x == 10 then 4 else 5;
      assert xs[k] == x;
    }
  }

  predicate InExampleSet(x: int)
  {
    x == 1 || x == 2 || x == 4 || x == 7 || x == 10 || x == 15
  }

  /** The sorted choices of four durations with sum 18, 19 or 20 are the
      listed ones. */
  lemma FourListed(t: int, a: int, b: int, c: int, d: int)
    requires 18 <= t <= 20
    requires InExampleSet(a) && InExampleSet(b) && InExampleSet(c) && InExampleSet(d)
    requires a <= b <= c <= d && a + b + c + d == t
    ensures [a, b, c, d] in Listed(t)
  {
  }

  /** A pool of four sorted durations of the set with sum `t` is a candidate. */
  lemma FourCandidate(p: seq<int>, t: int)
    requires |p| == 4 && p[0] <= p[1] <= p[2] <= p[3]
    requires InExampleSet(p[0]) && InExampleSet(p[1]) && InExampleSet(p[2]) && InExampleSet(p[3])
    requires p[0] + p[1] + p[2] + p[3] == t
    ensures Candidate(p, t)
  {
    SumOfFour(p);
    forall x | x in p ensures InExampleSet(x) {
      var k :| 0 <= k < 4 && p[k] == x;
    }
  }

  /** Every listed pool is a candidate. */
  lemma ListedCandidate(t: int, p: seq<int>)
    requires 18 <= t <= 20 && p in Listed(t)
    ensures Candidate(p, t)
  {
    var l := Listed(t);
    var k :| 0 <= k < |l| && l[k] == p;
    FourCandidate(l[k], t);
  }

  /** Every candidate is listed. */
  lemma CandidateListed(t: int, p: seq<int>)
    requires 18 <= t <= 20 && Candidate(p, t)
    ensures p in Listed(t)
  {
    SumOfFour(p);
    assert p[0] in p && p[1] in p && p[2] in p && p[3] in p;
    assert p[0] <= p[1] <= p[2] <= p[3];
    FourListed(t, p[0], p[1], p[2], p[3]);
    assert p == [p[0], p[1], p[2], p[3]];
  }

  /** The listed buckets hold exactly the candidates of their sum. */
  lemma ListedAreCandidates(t: int, p: seq<int>)
    requires 18 <= t <= 20
    ensures p in Listed(t) <==> Candidate(p, t)
  {
    if p in Listed(t) {
      ListedCandidate(t, p);
    }
    if Candidate(p, t) {
      CandidateListed(t, p);
    }
  }

  /** Each listed bucket is in lexicographic order. */
  lemma ListedSorted(t: int)
    requires 18 <= t <= 20
    ensures LexSorted(Listed(t))
  {
    var l := Listed(t);
    forall i, j | 0 <= i < j < |l| ensures LexLess(l[i], l[j]) {
      LexLessOfFour(l[i], l[j]);
    }
  }

  /** The pools of the example set with sum `t` are the listed ones. */
  lemma ExampleBucket(xs: seq<int>, t: int)
    requires IsExampleSet(xs)
    requires 18 <= t <= 20
    ensures PoolsWithSum(CombinationsWithReplacement(xs, 4), t) == Listed(t)
  {
    var all := CombinationsWithReplacement(xs, 4);
    var bucket := PoolsWithSum(all, t);
    ExampleMembers(xs);
    CombinationsSorted(xs, 4);
    PoolsWithSumSorted(all, t);
    ListedSorted(t);
    forall p ensures p in bucket <==> p in Listed(t) {
      ListedAreCandidates(t, p);
      if p in bucket {
        CombinationsShape(xs, 4, p);
      }
      if Candidate(p, t) {
        CombinationsComplete(xs, 4, p);
      }
    }
    LexSortedUnique(bucket, Listed(t));
  }

  /** A pool of four positive durations that uses 15 sums to at least 18. */
  lemma FifteenNeedsEighteen(p: seq<int>)
    requires |p| == 4 && 15 in p
    requires forall i :: 0 <= i < 4 ==> p[i] >= 1
    ensures Sum(p) >= 18
  {
    SumOfFour(p);
  }

  /** Below 18 no pool uses the duration 15: three more durations of at
      least 1 bring every such pool to 18 or more. */
  lemma NoFifteenBelow18(xs: seq<int>, t: int, p: seq<int>)
    requires IsExampleSet(xs)
    requires t < 18 && p in PoolsWithSum(CombinationsWithReplacement(xs, 4), t)
    ensures 15 !in p
  {
    CombinationsShape(xs, 4, p);
    ExampleMembers(xs);
    forall i | 0 <= i < 4 ensures p[i] >= 1 {
      assert p[i] in p;
    }
    if 15 in p {
      FifteenNeedsEighteen(p);
    }
  }

  /** Every value of the example set occurs in each listed bucket. */
  lemma ListedUsesAll(xs: seq<int>, t: int)
    requires IsExampleSet(xs)
    requires 18 <= t <= 20
    ensures UsedValues(Listed(t)) == Elements(xs)
  {
    var l := Listed(t);
    ExampleMembers(xs);
    forall x ensures x in UsedValues(l) <==> x in xs {
      if x in xs {
        var p := if x == 1 || x == 15 then l[0]
                 else if x == 10 then l[1]
                 else if x == 2 then (if t == 18 then l[1] else l[0])
                 else if x == 4 then (if t == 18 then l[1] else l[2])
                 else (if t == 18 then l[2] else l[1]);
        assert p in l && x in p;
      }
    }
    SameElements(UsedValues(l), xs);
  }

  /** A set with the same members as `xs` is `set(xs)`. */
  lemma SameElements(a: set<int>, xs: seq<int>)
    requires forall x :: x in a <==> x in xs
    ensures a == Elements(xs)
  {
    var e := Elements(xs);
    forall x ensures x in a <==> x in e {
      assert x in e <==> x in xs;
    }
  }

  /** The sums 18, 19 and 20 pass all three checks. */
  lemma ExampleKept(xs: seq<int>, t: int)
    requires IsExampleSet(xs)
    requires 18 <= t <= 20
    ensures var bucket := PoolsWithSum(CombinationsWithReplacement(xs, 4), t);
      bucket != [] && KeepBucket(Shipped, xs, t, bucket)
  {
    ExampleBucket(xs, t);
    ListedUsesAll(xs, t);
    assert |Listed(t)| >= 3;
  }

  /** Every other sum fails a check: outside 3..20 the sum range, below 18
      the use of every duration. */
  lemma ExampleDropped(xs: seq<int>, t: int)
    requires IsExampleSet(xs)
    requires t < 18 || t > 20
    ensures !KeepBucket(Shipped, xs, t, PoolsWithSum(CombinationsWithReplacement(xs, 4), t))
  {
    var bucket := PoolsWithSum(CombinationsWithReplacement(xs, 4), t);
    if 3 <= t < 18 {
      forall p | p in bucket ensures 15 !in p {
        NoFifteenBelow18(xs, t, p);
      }
      assert 15 in Elements(xs);
      assert 15 !in UsedValues(bucket);
    }
  }

  /** The first pool with sum `t` is the head of its listed bucket. */
  lemma ExampleFirst(xs: seq<int>, t: int)
    requires IsExampleSet(xs)
    requires 18 <= t <= 20
    ensures var all := CombinationsWithReplacement(xs, 4);
      FirstWithSum(all, t) < |all| && all[FirstWithSum(all, t)] == Listed(t)[0]
  {
    var all := CombinationsWithReplacement(xs, 4);
    ExampleBucket(xs, t);
    SomePoolWithSum(all, t);
    FirstIsHead(all, t);
  }

  /** In a sorted enumeration, the sum whose first pool is lexicographically
      smaller occurs first. */
  lemma FirstsInOrder(all: seq<seq<int>>, s: int, t: int)
    requires LexSorted(all)
    requires FirstWithSum(all, s) < |all| && FirstWithSum(all, t) < |all|
    requires LexLess(all[FirstWithSum(all, s)], all[FirstWithSum(all, t)])
    ensures FirstWithSum(all, s) < FirstWithSum(all, t)
  {
    var a, b := FirstWithSum(all, s), FirstWithSum(all, t);
    LexLessAsymmetric(all[a], all[b]);
    LexLessIrreflexive(all[a]);
  }

  /** The first pool of sum 18 comes before the first of sum 19, which
      comes before the first of sum 20. */
  lemma ExampleFirsts(xs: seq<int>)
    requires IsExampleSet(xs)
    ensures var all := CombinationsWithReplacement(xs, 4);
      FirstWithSum(all, 18) < FirstWithSum(all, 19) < FirstWithSum(all, 20) < |all|
  {
    var all := CombinationsWithReplacement(xs, 4);
    ExampleMembers(xs);
    CombinationsSorted(xs, 4);
    ExampleFirst(xs, 18);
    ExampleFirst(xs, 19);
    ExampleFirst(xs, 20);
    LexLessOfFour(Pools18[0], Pools19[0]);
    LexLessOfFour(Pools19[0], Pools20[0]);
    FirstsInOrder(all, 18, 19);
    FirstsInOrder(all, 19, 20);
  }

  /** In a list that increases in some ranking, equal keys sit at the same
      position. */
  lemma SamePosition(order: seq<int>, rank: int -> int, i: int, j: int)
    requires forall i, j :: 0 <= i < j < |order| ==> rank(order[i]) < rank(order[j])
    requires 0 <= i < |order| && 0 <= j < |order|
    ensures order[i] == order[j] ==> i == j
  {
  }

  /** A list holding 18, 19 and 20 and nothing else, in increasing order of
      a ranking with 18 < 19 < 20, is [18, 19, 20]. */
  lemma OrderOfThree(order: seq<int>, rank: int -> int)
    requires rank(18) < rank(19) < rank(20)
    requires forall t :: t in order <==> 18 <= t <= 20
    requires forall i, j :: 0 <= i < j < |order| ==> rank(order[i]) < rank(order[j])
    ensures order == [18, 19, 20]
  {
    assert 18 in order && 19 in order && 20 in order;
    var a :| 0 <= a < |order| && order[a] == 18;
    var b :| 0 <= b < |order| && order[b] == 19;
    var c :| 0 <= c < |order| && order[c] == 20;
    forall i | 0 <= i < |order|
      ensures (order[i] == 18 && i == a) || (order[i] == 19 && i == b) || (order[i] == 20 && i == c)
    {
      assert order[i] in order;
      SamePosition(order, rank, i, a);
      SamePosition(order, rank, i, b);
      SamePosition(order, rank, i, c);
    }
    assert a < b < c;
    assert order[0] == 18 && order[1] == 19 && order[2] == 20;
    assert order[|order| - 1] == 20;
  }

  /** The filter keeps the sums 18, 19 and 20 and no other. */
  lemma ExampleKeys(xs: seq<int>)
    requires IsExampleSet(xs)
    ensures forall t :: t in PoolsFiltered(Shipped, xs, 4).pools <==> 18 <= t <= 20
  {
    PoolsFilteredMeaning(Shipped, xs, 4);
    forall t ensures t in PoolsFiltered(Shipped, xs, 4).pools <==> 18 <= t <= 20 {
      if 18 <= t <= 20 {
        ExampleKept(xs, t);
      } else {
        ExampleDropped(xs, t);
      }
    }
  }

  /** The kept buckets are the listed ones. */
  lemma ExampleBuckets(xs: seq<int>)
    requires IsExampleSet(xs)
    ensures forall t :: t in PoolsFiltered(Shipped, xs, 4).pools ==>
      PoolsFiltered(Shipped, xs, 4).pools[t] == Listed(t)
  {
    PoolsFilteredMeaning(Shipped, xs, 4);
    ExampleKeys(xs);
    forall t | t in PoolsFiltered(Shipped, xs, 4).pools
      ensures PoolsFiltered(Shipped, xs, 4).pools[t] == Listed(t)
    {
      ExampleBucket(xs, t);
    }
  }

  /** The kept sums come in the order 18, 19, 20. */
  lemma ExampleOrder(xs: seq<int>)
    requires IsExampleSet(xs)
    ensures PoolsFiltered(Shipped, xs, 4).order == [18, 19, 20]
  {
    var all := CombinationsWithReplacement(xs, 4);
    var r := PoolsFiltered(Shipped, xs, 4);
    PoolsFilteredMeaning(Shipped, xs, 4);
    ExampleKeys(xs);
    ExampleFirsts(xs);
    assert OrderedByFirst(all, r.order);
    OrderOfThree(r.order, t => FirstWithSum(all, t));
  }

  /** A dictionary with the keys 18, 19 and 20 in that order, each mapped to
      its listed bucket, is the header's result. */
  lemma ListedDict(r: SumDict)
    requires forall t :: t in r.pools <==> 18 <= t <= 20
    requires forall t :: t in r.pools ==> r.pools[t] == Listed(t)
    requires r.order == [18, 19, 20]
    ensures r == SumDict([18, 19, 20], map[18 := Pools18, 19 := Pools19, 20 := Pools20])
  {
    var m := map[18 := Pools18, 19 := Pools19, 20 := Pools20];
    forall t ensures t in r.pools <==> t in m {
    }
    forall t | t in m ensures r.pools[t] == m[t] {
    }
    assert r.pools == m;
  }

  /** The header's example: `generate_pools((1, 2, 4, 7, 10, 15), 4)` under
      the shipped settings keeps the sums 18, 19 and 20, in that order, with
      exactly the listed pools. */
  lemma ExamplePools(xs: seq<int>)
    requires IsExampleSet(xs)
    ensures PoolsFiltered(Shipped, xs, 4) ==
      SumDict([18, 19, 20], map[18 := Pools18, 19 := Pools19, 20 := Pools20])
  {
    ExampleKeys(xs);
    ExampleBuckets(xs);
    ExampleOrder(xs);
    ListedDict(PoolsFiltered(Shipped, xs, 4));
  }

  /** The header's example on the set (1, 2, 4, 7, 10, 15) itself. */
  lemma HeaderExample()
    ensures PoolsFiltered(Shipped, ExampleSet, 4) ==
      SumDict([18, 19, 20], map[18 := Pools18, 19 := Pools19, 20 := Pools20])
  {
    ExamplePools(ExampleSet);
  }

  /** The example set is one of the sets `generate_sets` yields under the
      shipped settings: 4 lies in [4, 8] after 2, 7 in [6, 16] after 4,
      10 in [10, 28] after 7 and 15 in [15, 40] after 10, each cut to
      [4, 25]. */
  lemma ExampleSetGenerated()
    ensures ExampleSet in GenerateSets(Shipped)
  {
    SortedPair(1, 2);
    assert ExampleSet[..2] == [1, 2];
    assert Follows(Shipped, 2, 4) && Follows(Shipped, 4, 7);
    assert Follows(Shipped, 7, 10) && Follows(Shipped, 10, 15);
    forall i | 2 <= i < 6 ensures Admissible(Shipped, ExampleSet, i) {
    }
    GenerateSetsExact(Shipped, ExampleSet);
  }
}
