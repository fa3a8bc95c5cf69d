/** The second stage of the searcher, `generate_pools`: every multiset of a
    fixed length drawn from one duration set, grouped by sum into an
    insertion-ordered dictionary, and the sum buckets that pass three
    filters. */
module PoolAnalyzer {
  import opened Utils
  import opened Settings
  import opened Sequences

  // ---------------------------------------------------------------------
  // Enumeration: itertools.combinations_with_replacement
  // ---------------------------------------------------------------------

  /** Puts `x` in front of every pool, keeping their number and order. */
  function PrependAll(x: int, pools: seq<seq<int>>): (r: seq<seq<int>>)
    ensures |r| == |pools| && forall i :: 0 <= i < |r| ==> r[i] == [x] + pools[i]
  {
    if |pools| == 0 then []
    else [[x] + pools[0]] + PrependAll(x, pools[1..])
  }

  /** `combinations_with_replacement(xs, k)`: the tuples of `k` elements of
      `xs` taken at non-decreasing positions, in lexicographic order of the
      positions. First come those that start at position 0, then those that
      use positions 1 onward only. */
  function CombinationsWithReplacement(xs: seq<int>, k: nat): seq<seq<int>>
    decreases |xs|, k
  {
    if k == 0 then [[]]
    else if |xs| == 0 then []
    else PrependAll(xs[0], CombinationsWithReplacement(xs, k - 1)) + CombinationsWithReplacement(xs[1..], k)
  }

  /** Every pool has `k` elements, all drawn from `xs`, and is sorted when
      `xs` is. */
  lemma {:induction false} CombinationsShape(xs: seq<int>, k: nat, p: seq<int>)
    requires p in CombinationsWithReplacement(xs, k)
    ensures |p| == k
    ensures forall x :: x in p ==> x in xs
    ensures NonDecreasing(xs) ==> NonDecreasing(p)
    decreases |xs|, k
  {
    if k > 0 {
      var inner := CombinationsWithReplacement(xs, k - 1);
      var left := PrependAll(xs[0], inner);
      if p in left {
        var i :| 0 <= i < |left| && left[i] == p;
        var q := inner[i];
        CombinationsShape(xs, k - 1, q);
        assert p == [xs[0]] + q;
        if NonDecreasing(xs) {
          HeadBelowAll(xs, q);
          ConsSorted(xs[0], q);
        }
      } else {
        CombinationsShape(xs[1..], k, p);
        if NonDecreasing(xs) {
          TailSorted(xs);
        }
      }
    }
  }

  /** The head of a sorted `xs` is below everything drawn from `xs`. */
  lemma HeadBelowAll(xs: seq<int>, q: seq<int>)
    requires NonDecreasing(xs) && |xs| > 0
    requires forall x :: x in q ==> x in xs
    ensures forall j :: 0 <= j < |q| ==> xs[0] <= q[j]
  {
    forall j | 0 <= j < |q| ensures xs[0] <= q[j] {
      assert q[j] in q;
      var m :| 0 <= m < |xs| && xs[m] == q[j];
    }
  }

  /** Every sorted tuple of `k` elements of a sorted `xs` is enumerated. */
  lemma {:induction false} CombinationsComplete(xs: seq<int>, k: nat, p: seq<int>)
    requires NonDecreasing(xs) && NonDecreasing(p) && |p| == k
    requires forall x :: x in p ==> x in xs
    ensures p in CombinationsWithReplacement(xs, k)
    decreases |xs|, k
  {
    if k == 0 {
      assert p == [];
    } else {
      assert p[0] in p;
      var inner := CombinationsWithReplacement(xs, k - 1);
      if p[0] == xs[0] {
        var tail := p[1..];
        forall x | x in tail ensures x in xs {
          assert x in p;
        }
        CombinationsComplete(xs, k - 1, tail);
        var i :| 0 <= i < |inner| && inner[i] == tail;
        var left := PrependAll(xs[0], inner);
        assert left[i] == p;
        assert CombinationsWithReplacement(xs, k) == left + CombinationsWithReplacement(xs[1..], k);
      } else {
        var a :| 0 <= a < |xs| && xs[a] == p[0];
        assert xs[0] < p[0];
        forall x | x in p ensures x in xs[1..] {
          var m :| 0 <= m < |p| && p[m] == x;
          assert p[0] <= x;
          InTail(xs, x);
        }
        CombinationsComplete(xs[1..], k, p);
      }
    }
  }

  /** An element other than the head is in the tail. */
  lemma InTail(xs: seq<int>, x: int)
    requires x in xs && |xs| > 0 && x != xs[0]
    ensures x in xs[1..]
  {
    var b :| 0 <= b < |xs| && xs[b] == x;
    assert xs[1..][b - 1] == x;
  }

  /** Over strictly increasing durations the pools come out in strictly
      increasing lexicographic order, so no pool is enumerated twice. */
  lemma {:induction false} CombinationsSorted(xs: seq<int>, k: nat)
    requires StrictlyIncreasing(xs)
    ensures LexSorted(CombinationsWithReplacement(xs, k))
    decreases |xs|, k
  {
    if k > 0 && |xs| > 0 {
      var inner := CombinationsWithReplacement(xs, k - 1);
      var left := PrependAll(xs[0], inner);
      var right := CombinationsWithReplacement(xs[1..], k);
      CombinationsSorted(xs, k - 1);
      CombinationsSorted(xs[1..], k);
      forall i, j | 0 <= i < j < |left| ensures LexLess(left[i], left[j]) {
        LexLessCons(xs[0], inner[i], inner[j]);
      }
      forall a, b | a in left && b in right ensures LexLess(a, b) {
        CombinationsShape(xs[1..], k, b);
        assert b[0] in b;
        var m :| 0 <= m < |xs[1..]| && xs[1..][m] == b[0];
        assert xs[0] < xs[m + 1];
        var i :| 0 <= i < |left| && left[i] == a;
        assert a[0] == xs[0];
      }
      LexSortedAppend(left, right);
    }
  }

  // ---------------------------------------------------------------------
  // The insertion-ordered dictionary sum -> list of pools
  // ---------------------------------------------------------------------

  /** A Python `dict[int, list[tuple]]`: its keys in insertion order and the
      mapping itself. */
  datatype SumDict = SumDict(order: seq<int>, pools: map<int, seq<seq<int>>>)

  /** The keys are listed once each, and they are exactly the mapped keys. */
  ghost predicate WellFormed(d: SumDict)
  {
    && (forall i, j :: 0 <= i < j < |d.order| ==> d.order[i] != d.order[j])
    && (forall t :: t in d.pools <==> t in d.order)
  }

  const Empty := SumDict([], map[])

  /** `d[key] = value`: an existing key keeps its place in the iteration
      order, a new key goes last. */
  function Put(d: SumDict, key: int, value: seq<seq<int>>): (r: SumDict)
    ensures WellFormed(d) ==> WellFormed(r)
    ensures r.pools == d.pools[key := value]
    ensures key in d.pools ==> r.order == d.order
    ensures key !in d.pools ==> r.order == d.order + [key]
  {
    if key in d.pools then SumDict(d.order, d.pools[key := value])
    else SumDict(d.order + [key], d.pools[key := value])
  }

  /** One turn of the grouping loop: the pool opens a new bucket for its sum
      or is appended to the existing one. */
  function AddPool(d: SumDict, pool: seq<int>): SumDict
  {
    var total := Sum(pool);
    if total !in d.pools then Put(d, total, [pool])
    else Put(d, total, d.pools[total] + [pool])
  }

  /** The dictionary `pools_by_total_duration` after the grouping loop has
      seen `pools`. */
  function GroupBySum(pools: seq<seq<int>>): (r: SumDict)
    ensures WellFormed(r)
  {
    if |pools| == 0 then Empty
    else AddPool(GroupBySum(pools[..|pools| - 1]), pools[|pools| - 1])
  }

  /** The pools whose sum is `t`, in the order of `pools`. */
  function PoolsWithSum(pools: seq<seq<int>>, t: int): (r: seq<seq<int>>)
    ensures forall p :: p in r <==> p in pools && Sum(p) == t
  {
    if |pools| == 0 then []
    else
      var last := pools[|pools| - 1];
      assert pools == pools[..|pools| - 1] + [last];
      PoolsWithSum(pools[..|pools| - 1], t) + (if Sum(last) == t then [last] else [])
  }

  /** The position of the first pool whose sum is `t`, or `|pools|` when no
      pool has that sum. */
  function FirstWithSum(pools: seq<seq<int>>, t: int): (r: nat)
    ensures r <= |pools|
  {
    if |pools| == 0 then 0
    else if Sum(pools[0]) == t then 0
    else 1 + FirstWithSum(pools[1..], t)
  }

  /** FirstWithSum finds the first pool with sum `t`: that pool has sum `t`
      and none before it has. */
  lemma {:induction false} FirstWithSumIsFirst(pools: seq<seq<int>>, t: int)
    ensures var r := FirstWithSum(pools, t);
      && (r < |pools| ==> Sum(pools[r]) == t)
      && (forall j :: 0 <= j < r ==> Sum(pools[j]) != t)
  {
    if |pools| > 0 && Sum(pools[0]) != t {
      FirstWithSumIsFirst(pools[1..], t);
      assert forall j :: 1 <= j < |pools| ==> pools[1..][j - 1] == pools[j];
    }
  }

  /** A pool added at the end does not move an earlier first occurrence and
      is itself the first of its sum when that sum is new. */
  lemma FirstWithSumSnoc(pools: seq<seq<int>>, p: seq<int>, t: int)
    ensures FirstWithSum(pools, t) < |pools| ==> FirstWithSum(pools + [p], t) == FirstWithSum(pools, t)
    ensures FirstWithSum(pools, t) == |pools| ==>
      FirstWithSum(pools + [p], t) == if Sum(p) == t then |pools| else |pools| + 1
  {
    var all := pools + [p];
    var r0 := FirstWithSum(pools, t);
    var r := FirstWithSum(all, t);
    FirstWithSumIsFirst(pools, t);
    FirstWithSumIsFirst(all, t);
    assert forall j :: 0 <= j < |pools| ==> all[j] == pools[j];
    assert r0 < |pools| ==> Sum(all[r0]) == t;
    assert r < |pools| ==> Sum(pools[r]) == t;
    assert all[|pools|] == p;
  }

  /** How one more pool changes the first occurrence of a sum. */
  lemma FirstStep(pools: seq<seq<int>>, t: int)
    requires |pools| > 0
    ensures var n := |pools| - 1;
      FirstWithSum(pools, t) ==
        (if FirstWithSum(pools[..n], t) < n then FirstWithSum(pools[..n], t)
         else if Sum(pools[n]) == t then n else n + 1)
  {
    var n := |pools| - 1;
    assert pools[..n] + [pools[n]] == pools;
    FirstWithSumSnoc(pools[..n], pools[n], t);
  }

  /** How one more pool changes the pools with a sum. */
  lemma PoolsStep(pools: seq<seq<int>>, t: int)
    requires |pools| > 0
    ensures var n := |pools| - 1;
      PoolsWithSum(pools, t) ==
        PoolsWithSum(pools[..n], t) + (if Sum(pools[n]) == t then [pools[n]] else [])
  {
  }

  /** The grouping loop opens a bucket exactly for each sum that occurs. */
  lemma {:induction false} GroupBySumKeys(pools: seq<seq<int>>)
    ensures forall t :: t in GroupBySum(pools).pools <==> FirstWithSum(pools, t) < |pools|
  {
    if |pools| > 0 {
      var n := |pools| - 1;
      GroupBySumKeys(pools[..n]);
      forall t ensures t in GroupBySum(pools).pools <==> FirstWithSum(pools, t) < |pools| {
        FirstStep(pools, t);
      }
    }
  }

  /** A sum with no first occurrence has no pools. */
  lemma {:induction false} NoPoolsWithSum(pools: seq<seq<int>>, t: int)
    requires FirstWithSum(pools, t) == |pools|
    ensures PoolsWithSum(pools, t) == []
  {
    if |pools| > 0 {
      var n := |pools| - 1;
      FirstStep(pools, t);
      NoPoolsWithSum(pools[..n], t);
      PoolsStep(pools, t);
    }
  }

  /** Each bucket holds exactly the pools with its sum, in enumeration order. */
  lemma {:induction false} GroupBySumBuckets(pools: seq<seq<int>>)
    ensures forall t :: t in GroupBySum(pools).pools ==> GroupBySum(pools).pools[t] == PoolsWithSum(pools, t)
  {
    if |pools| > 0 {
      var n := |pools| - 1;
      var d0 := GroupBySum(pools[..n]);
      var d := GroupBySum(pools);
      GroupBySumBuckets(pools[..n]);
      GroupBySumKeys(pools[..n]);
      forall t | t in d.pools ensures d.pools[t] == PoolsWithSum(pools, t) {
        PoolsStep(pools, t);
        if t !in d0.pools {
          NoPoolsWithSum(pools[..n], t);
        }
      }
    }
  }

  /** The keys in `order` are listed by increasing position of the first
      pool with that sum. */
  ghost predicate OrderedByFirst(pools: seq<seq<int>>, order: seq<int>)
  {
    forall i, j :: 0 <= i < j < |order| ==> FirstWithSum(pools, order[i]) < FirstWithSum(pools, order[j])
  }

  /** One more pool does not move the first occurrence of a sum that
      already has a bucket. */
  lemma KeptFirsts(pools: seq<seq<int>>)
    requires |pools| > 0
    ensures var n := |pools| - 1;
      forall t :: t in GroupBySum(pools[..n]).pools ==>
        FirstWithSum(pools, t) == FirstWithSum(pools[..n], t) < n
  {
    var n := |pools| - 1;
    GroupBySumKeys(pools[..n]);
    forall t | t in GroupBySum(pools[..n]).pools
      ensures FirstWithSum(pools, t) == FirstWithSum(pools[..n], t) < n
    {
      FirstStep(pools, t);
    }
  }

  /** The order carries over to an enumeration with the same first
      occurrences. */
  lemma OrderedTransfer(before: seq<seq<int>>, after: seq<seq<int>>, order: seq<int>)
    requires OrderedByFirst(before, order)
    requires forall i :: 0 <= i < |order| ==> FirstWithSum(after, order[i]) == FirstWithSum(before, order[i])
    ensures OrderedByFirst(after, order)
  {
  }

  /** A key that occurs after all keys of the order may go last. */
  lemma OrderedSnoc(pools: seq<seq<int>>, order: seq<int>, t: int)
    requires OrderedByFirst(pools, order)
    requires forall i :: 0 <= i < |order| ==> FirstWithSum(pools, order[i]) < FirstWithSum(pools, t)
    ensures OrderedByFirst(pools, order + [t])
  {
    var o := order + [t];
    forall i, j | 0 <= i < j < |o| ensures FirstWithSum(pools, o[i]) < FirstWithSum(pools, o[j]) {
      assert o[i] == order[i];
      assert j < |order| ==> o[j] == order[j];
    }
  }

  /** The keys are ordered by the position of the first pool with that sum. */
  lemma {:induction false} GroupBySumOrder(pools: seq<seq<int>>)
    ensures OrderedByFirst(pools, GroupBySum(pools).order)
  {
    if |pools| > 0 {
      var n := |pools| - 1;
      var d0 := GroupBySum(pools[..n]);
      var total := Sum(pools[n]);
      GroupBySumOrder(pools[..n]);
      KeptFirsts(pools);
      forall i | 0 <= i < |d0.order|
        ensures FirstWithSum(pools, d0.order[i]) == FirstWithSum(pools[..n], d0.order[i]) < n
      {
        assert d0.order[i] in d0.order;
      }
      OrderedTransfer(pools[..n], pools, d0.order);
      if total !in d0.pools {
        GroupBySumKeys(pools[..n]);
        FirstStep(pools, total);
        OrderedSnoc(pools, d0.order, total);
      }
    }
  }

  // ---------------------------------------------------------------------
  // Filtering
  // ---------------------------------------------------------------------

  /** `durations_used_set` after the nested loops over `pools`: every value
      that occurs in some pool. */
  function UsedValues(pools: seq<seq<int>>): (r: set<int>)
    ensures forall x :: x in r <==> exists p :: p in pools && x in p
  {
    if |pools| == 0 then {}
    else
      var last := pools[|pools| - 1];
      assert pools == pools[..|pools| - 1] + [last];
      UsedValues(pools[..|pools| - 1]) + (set x | x in last)
  }

  /** The three checks a sum bucket must pass to be kept: the sum lies in
      `pool_target_sum_range`, the bucket has at least
      `min_pools_with_the_same_sum` pools, and every duration of the set is
      used by some pool of the bucket. */
  predicate KeepBucket(cfg: SearchConfig, durationsSet: seq<int>, total: int, poolList: seq<seq<int>>)
  {
    && InRangeInclusiveTuple(total, cfg.poolSum)
    && |poolList| >= cfg.minPoolsPerSum
    && UsedValues(poolList) == Elements(durationsSet)
  }

  /** `pools_filtered` after the filtering loop has visited the first `n`
      keys of `d` in iteration order. */
  function FilterBuckets(cfg: SearchConfig, durationsSet: seq<int>, d: SumDict, n: nat): (r: SumDict)
    requires n <= |d.order|
    requires forall t :: t in d.order ==> t in d.pools
    ensures WellFormed(r)
  {
    if n == 0 then Empty
    else
      var r := FilterBuckets(cfg, durationsSet, d, n - 1);
      var total := d.order[n - 1];
      if KeepBucket(cfg, durationsSet, total, d.pools[total]) then Put(r, total, d.pools[total]) else r
  }

  /** The filter keeps exactly the buckets that pass the three checks,
      unchanged, and only keys it has visited. */
  lemma {:induction false} FilterBucketsMeaning(cfg: SearchConfig, durationsSet: seq<int>, d: SumDict, n: nat)
    requires WellFormed(d) && n <= |d.order|
    ensures var r := FilterBuckets(cfg, durationsSet, d, n);
      && (forall t :: t in r.pools <==> t in d.order[..n] && KeepBucket(cfg, durationsSet, t, d.pools[t]))
      && (forall t :: t in r.pools ==> r.pools[t] == d.pools[t])
      && (forall t :: t in r.order ==> t in d.order[..n])
  {
    if n > 0 {
      FilterBucketsMeaning(cfg, durationsSet, d, n - 1);
      assert d.order[..n] == d.order[..n - 1] + [d.order[n - 1]];
    }
  }

  /** Filtering keeps the first-occurrence order of the keys: when the keys
      of `d` come in the order of their first pools in `pools`, so do the
      kept keys. */
  lemma {:induction false} FilterBucketsOrdered(cfg: SearchConfig, durationsSet: seq<int>, d: SumDict, n: nat, pools: seq<seq<int>>)
    requires WellFormed(d) && n <= |d.order|
    requires OrderedByFirst(pools, d.order)
    ensures OrderedByFirst(pools, FilterBuckets(cfg, durationsSet, d, n).order)
  {
    if n > 0 {
      FilterBucketsOrdered(cfg, durationsSet, d, n - 1, pools);
      FilterBucketsMeaning(cfg, durationsSet, d, n - 1);
      var r0 := FilterBuckets(cfg, durationsSet, d, n - 1);
      var r := FilterBuckets(cfg, durationsSet, d, n);
      var total := d.order[n - 1];
      if r != r0 {
        assert total !in r0.pools;
        assert r.order == r0.order + [total];
        forall i, j | 0 <= i < j < |r.order|
          ensures FirstWithSum(pools, r.order[i]) < FirstWithSum(pools, r.order[j])
        {
          if j == |r0.order| {
            assert r.order[i] == r0.order[i] && r0.order[i] in r0.order;
            var k :| 0 <= k < n - 1 && d.order[k] == r.order[i];
          } else {
            assert r.order[i] == r0.order[i] && r.order[j] == r0.order[j];
          }
        }
      }
    }
  }

  /** `generate_pools(durations_set, pool_length)` as a value. */
  function PoolsFiltered(cfg: SearchConfig, durationsSet: seq<int>, poolLength: nat): SumDict
  {
    var grouped := GroupBySum(CombinationsWithReplacement(durationsSet, poolLength));
    FilterBuckets(cfg, durationsSet, grouped, |grouped.order|)
  }

  /** Some pool has sum `t` exactly when there is a first one. */
  lemma SomePoolWithSum(pools: seq<seq<int>>, t: int)
    ensures PoolsWithSum(pools, t) != [] <==> FirstWithSum(pools, t) < |pools|
  {
    FirstWithSumIsFirst(pools, t);
    var f := FirstWithSum(pools, t);
    if f < |pools| {
      assert pools[f] in PoolsWithSum(pools, t);
    }
    if PoolsWithSum(pools, t) != [] {
      var p := PoolsWithSum(pools, t)[0];
      assert p in PoolsWithSum(pools, t);
      var k :| 0 <= k < |pools| && pools[k] == p;
    }
  }

  /** The first pool with a sum heads the list of pools with that sum. */
  lemma {:induction false} FirstIsHead(pools: seq<seq<int>>, t: int)
    requires FirstWithSum(pools, t) < |pools|
    ensures PoolsWithSum(pools, t) != []
    ensures PoolsWithSum(pools, t)[0] == pools[FirstWithSum(pools, t)]
  {
    var n := |pools| - 1;
    FirstStep(pools, t);
    PoolsStep(pools, t);
    if FirstWithSum(pools[..n], t) < n {
      FirstIsHead(pools[..n], t);
    } else {
      NoPoolsWithSum(pools[..n], t);
    }
  }

  /** What `generate_pools` returns: a well-formed dictionary whose keys are
      exactly the sums that occur and whose bucket passes the three checks;
      each kept bucket is the full, ordered list of pools with that sum; the
      keys are ordered by the first pool having that sum. */
  lemma PoolsFilteredMeaning(cfg: SearchConfig, durationsSet: seq<int>, poolLength: nat)
    ensures var all := CombinationsWithReplacement(durationsSet, poolLength);
      var r := PoolsFiltered(cfg, durationsSet, poolLength);
      && WellFormed(r)
      && (forall t :: t in r.pools <==>
            PoolsWithSum(all, t) != [] && KeepBucket(cfg, durationsSet, t, PoolsWithSum(all, t)))
      && (forall t :: t in r.pools ==> r.pools[t] == PoolsWithSum(all, t))
      && OrderedByFirst(all, r.order)
  {
    var all := CombinationsWithReplacement(durationsSet, poolLength);
    var grouped := GroupBySum(all);
    var r := PoolsFiltered(cfg, durationsSet, poolLength);
    GroupBySumKeys(all);
    GroupBySumBuckets(all);
    GroupBySumOrder(all);
    FilterBucketsMeaning(cfg, durationsSet, grouped, |grouped.order|);
    FilterBucketsOrdered(cfg, durationsSet, grouped, |grouped.order|, all);
    assert grouped.order[..|grouped.order|] == grouped.order;
    forall t
      ensures t in r.pools <==> PoolsWithSum(all, t) != [] && KeepBucket(cfg, durationsSet, t, PoolsWithSum(all, t))
    {
      SomePoolWithSum(all, t);
    }
  }

  /** The pools of a kept bucket: `poolLength` durations of the set each, in
      non-decreasing order when the set is sorted, summing to the bucket's
      key; over a strictly increasing set, in strictly increasing
      lexicographic order, so no pool is listed twice. */
  lemma KeptPools(cfg: SearchConfig, durationsSet: seq<int>, poolLength: nat, t: int)
    requires t in PoolsFiltered(cfg, durationsSet, poolLength).pools
    ensures var list := PoolsFiltered(cfg, durationsSet, poolLength).pools[t];
      && (forall p :: p in list ==>
            |p| == poolLength && Sum(p) == t && forall x :: x in p ==> x in durationsSet)
      && (NonDecreasing(durationsSet) ==> forall p :: p in list ==> NonDecreasing(p))
      && (StrictlyIncreasing(durationsSet) ==> LexSorted(list))
  {
    var all := CombinationsWithReplacement(durationsSet, poolLength);
    PoolsFilteredMeaning(cfg, durationsSet, poolLength);
    var list := PoolsWithSum(all, t);
    forall p | p in list
      ensures |p| == poolLength && Sum(p) == t && forall x :: x in p ==> x in durationsSet
      ensures NonDecreasing(durationsSet) ==> NonDecreasing(p)
    {
      CombinationsShape(durationsSet, poolLength, p);
    }
    if StrictlyIncreasing(durationsSet) {
      CombinationsSorted(durationsSet, poolLength);
      PoolsWithSumSorted(all, t);
    }
  }

  /** With pool length 1 over a strictly increasing set, a kept bucket is
      the single pool made of its sum, so it survives only when
      `min_pools_with_the_same_sum` is at most 1. */
  lemma PoolLengthOne(cfg: SearchConfig, durationsSet: seq<int>, t: int)
    requires StrictlyIncreasing(durationsSet)
    requires t in PoolsFiltered(cfg, durationsSet, 1).pools
    ensures PoolsFiltered(cfg, durationsSet, 1).pools[t] == [[t]]
    ensures t in durationsSet
    ensures cfg.minPoolsPerSum <= 1
  {
    var list := PoolsFiltered(cfg, durationsSet, 1).pools[t];
    KeptPools(cfg, durationsSet, 1, t);
    PoolsFilteredMeaning(cfg, durationsSet, 1);
    SingletonBucket(list, t);
  }

  /** A sorted, non-empty list of one-element pools with sum `t` is the
      single pool `[t]`. */
  lemma SingletonBucket(list: seq<seq<int>>, t: int)
    requires LexSorted(list) && list != []
    requires forall p :: p in list ==> |p| == 1 && Sum(p) == t
    ensures list == [[t]]
  {
    forall p | p in list ensures p == [t] {
      SumOfOne(p);
      assert p == [p[0]];
    }
    OnlyPool(list, [t]);
  }

  /** A sorted, non-empty list whose every entry is `q` is `[q]`. */
  lemma OnlyPool(list: seq<seq<int>>, q: seq<int>)
    requires LexSorted(list) && list != []
    requires forall p :: p in list ==> p == q
    ensures list == [q]
  {
    forall i | 0 <= i < |list| ensures list[i] == q {
      assert list[i] in list;
    }
    DistinctPair(list);
    assert list == [list[0]];
  }

  /** `k` copies of `d` sum to `k * d`. */
  lemma {:induction false} SumConst(k: nat, d: int)
    ensures Sum(seq(k, _ => d)) == k * d
  {
    if k > 0 {
      assert seq(k, _ => d)[..k - 1] == seq(k - 1, _ => d);
      SumConst(k - 1, d);
    }
  }

  /** Over a one-element set `[d]` the only pool is `k` copies of `d`, so a
      kept bucket holds that pool alone, its sum is `k * d`, and it is kept
      only when `min_pools_with_the_same_sum` is at most 1. */
  lemma SingletonSet(cfg: SearchConfig, d: int, k: nat, t: int)
    requires t in PoolsFiltered(cfg, [d], k).pools
    ensures PoolsFiltered(cfg, [d], k).pools[t] == [seq(k, _ => d)]
    ensures t == k * d
    ensures cfg.minPoolsPerSum <= 1
  {
    var list := PoolsFiltered(cfg, [d], k).pools[t];
    var q := seq(k, _ => d);
    KeptPools(cfg, [d], k, t);
    PoolsFilteredMeaning(cfg, [d], k);
    forall p | p in list ensures p == q {
      forall i | 0 <= i < k ensures p[i] == d {
        assert p[i] in p;
      }
    }
    OnlyPool(list, q);
    assert q in list;
    SumConst(k, d);
  }

  /** Conversely, over `[d]` with `k >= 1` every non-empty bucket passes the
      used-durations check. */
  lemma SingletonSetUsesAll(d: int, k: nat, t: int)
    requires k >= 1
    requires PoolsWithSum(CombinationsWithReplacement([d], k), t) != []
    ensures UsedValues(PoolsWithSum(CombinationsWithReplacement([d], k), t)) == Elements([d])
  {
    var all := CombinationsWithReplacement([d], k);
    var list := PoolsWithSum(all, t);
    var p := list[0];
    assert p in list;
    CombinationsShape([d], k, p);
    assert p[0] in p;
    forall x ensures x in UsedValues(list) <==> x in Elements([d]) {
      if x in UsedValues(list) {
        var r :| r in list && x in r;
        CombinationsShape([d], k, r);
      }
    }
  }


  /** Hence with pool length 1 and a minimum count above 1 nothing is kept. */
  lemma PoolLengthOneEmpty(cfg: SearchConfig, durationsSet: seq<int>)
    requires StrictlyIncreasing(durationsSet) && cfg.minPoolsPerSum > 1
    ensures PoolsFiltered(cfg, durationsSet, 1).pools == map[]
  {
    var r := PoolsFiltered(cfg, durationsSet, 1);
    forall t ensures t in r.pools ==> cfg.minPoolsPerSum <= 1 {
      if t in r.pools {
        PoolLengthOne(cfg, durationsSet, t);
      }
    }
  }

  /** Picking the pools of one sum keeps their order. */
  lemma {:induction false} PoolsWithSumSorted(pools: seq<seq<int>>, t: int)
    requires LexSorted(pools)
    ensures LexSorted(PoolsWithSum(pools, t))
  {
    if |pools| > 0 {
      var n := |pools| - 1;
      var before := pools[..n];
      assert LexSorted(before) by {
        forall i, j | 0 <= i < j < |before| ensures LexLess(before[i], before[j]) {
          assert before[i] == pools[i] && before[j] == pools[j];
        }
      }
      PoolsWithSumSorted(before, t);
      var last := pools[n];
      if Sum(last) == t {
        forall a, b | a in PoolsWithSum(before, t) && b in [last] ensures LexLess(a, b) {
          var k :| 0 <= k < n && before[k] == a;
        }
        LexSortedAppend(PoolsWithSum(before, t), [last]);
      }
    }
  }

  // ---------------------------------------------------------------------
  // The method: generate_pools as the script runs it
  // ---------------------------------------------------------------------

  /** The nested loops of `generate_pools` that collect
      `durations_used_set`: every value of every pool in the bucket. */
  method CollectUsed(poolList: seq<seq<int>>) returns (used: set<int>)
    ensures used == UsedValues(poolList)
  {
    used := {};
    var a := 0;
    while a < |poolList|
      invariant 0 <= a <= |poolList|
      invariant used == UsedValues(poolList[..a])
    {
      var pool := poolList[a];
      var b := 0;
      while b < |pool|
        invariant 0 <= b <= |pool|
        invariant used == UsedValues(poolList[..a]) + Elements(pool[..b])
      {
        assert pool[..b + 1] == pool[..b] + [pool[b]];
        used := used + {pool[b]};
        b := b + 1;
      }
      assert pool[..b] == pool;
      assert poolList[..a + 1][..a] == poolList[..a];
      a := a + 1;
    }
    assert poolList[..a] == poolList;
  }

  /** The first loop of `generate_pools`: every pool is appended to the
      bucket of its sum, which is opened when the sum is new. */
  method GroupPools(allPools: seq<seq<int>>) returns (poolsByTotal: SumDict)
    ensures poolsByTotal == GroupBySum(allPools)
    ensures WellFormed(poolsByTotal)
  {
    poolsByTotal := Empty;
    var i := 0;
    while i < |allPools|
      invariant 0 <= i <= |allPools|
      invariant poolsByTotal == GroupBySum(allPools[..i])
    {
      var pool := allPools[i];
      var total := Sum(pool);
      if total !in poolsByTotal.pools {
        poolsByTotal := Put(poolsByTotal, total, [pool]);
      } else {
        poolsByTotal := Put(poolsByTotal, total, poolsByTotal.pools[total] + [pool]);
      }
      assert allPools[..i + 1][..i] == allPools[..i];
      i := i + 1;
    }
    assert allPools[..i] == allPools;
  }

  /** The second loop of `generate_pools`: the buckets, in insertion order,
      that pass the sum-range check, the count check and the used-durations
      check are copied into a fresh dictionary. */
  method FilterPools(cfg: SearchConfig, durationsSet: seq<int>, poolsByTotal: SumDict) returns (poolsFiltered: SumDict)
    requires WellFormed(poolsByTotal)
    ensures poolsFiltered == FilterBuckets(cfg, durationsSet, poolsByTotal, |poolsByTotal.order|)
    ensures WellFormed(poolsFiltered)
  {
    poolsFiltered := Empty;
    var j := 0;
    while j < |poolsByTotal.order|
      invariant 0 <= j <= |poolsByTotal.order|
      invariant poolsFiltered == FilterBuckets(cfg, durationsSet, poolsByTotal, j)
    {
      var total := poolsByTotal.order[j];
      assert total in poolsByTotal.order;
      var poolList := poolsByTotal.pools[total];
      if InRangeInclusiveTuple(total, cfg.poolSum) {
        if |poolList| >= cfg.minPoolsPerSum {
          var used := CollectUsed(poolList);
          if used == Elements(durationsSet) {
            poolsFiltered := Put(poolsFiltered, total, poolList);
          }
        }
      }
      j := j + 1;
    }
  }

  /** `generate_pools`: enumerates the pools, groups them by sum and keeps
      the buckets that pass the three checks. */
  method GeneratePools(cfg: SearchConfig, durationsSet: seq<int>, poolLength: nat) returns (poolsFiltered: SumDict)
    ensures poolsFiltered == PoolsFiltered(cfg, durationsSet, poolLength)
    ensures WellFormed(poolsFiltered)
    ensures forall t :: t in poolsFiltered.pools ==>
      && KeepBucket(cfg, durationsSet, t, poolsFiltered.pools[t])
      && poolsFiltered.pools[t] == PoolsWithSum(CombinationsWithReplacement(durationsSet, poolLength), t)
    ensures OrderedByFirst(CombinationsWithReplacement(durationsSet, poolLength), poolsFiltered.order)
  {
    var allPools := CombinationsWithReplacement(durationsSet, poolLength);
    var poolsByTotal := GroupPools(allPools);
    poolsFiltered := FilterPools(cfg, durationsSet, poolsByTotal);
    PoolsFilteredMeaning(cfg, durationsSet, poolLength);
  }
}
