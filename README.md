# Duration-set searcher, modelled in Dafny

`scripts/durations_set_searcher.py` looks for sets of action durations that
can be combined into many "pools" of equal length and equal total. The search
has two stages:

- **`generate_sets`** is a backtracking enumerator.
  - For every set size in an inclusive range, it starts from the sorted
    forced durations (`duration_set_forced_first_added`).
  - It appends durations one at a time. Each new duration is confined to a
    window computed from the previous one:
    - at least `durations_min_diff` above it;
    - not below `floor(last * durations_min_mult)`;
    - not above `ceil(last * durations_max_mult)`;
    - always inside `durations_range`.
  - A branch whose window is empty is dropped.
- **`generate_pools`** analyses one set.
  - It enumerates every pool, meaning every multiset of `pool_length`
    durations from the set, in `itertools.combinations_with_replacement`
    order.
  - It groups the pools by their sum in an insertion-ordered dictionary.
  - It keeps a sum bucket only when three conditions hold:
    - the sum lies in `pool_target_sum_range`;
    - the bucket holds at least `min_pools_with_the_same_sum` pools;
    - every duration of the set occurs somewhere in the bucket.

The model is split into modules that follow the script:

- `Utils` (`utils.dfy`): Python's `range`, `range_inclusive`,
  `range_inclusive_tuple` and `in_range_inclusive_tuple`.
- `Settings` (`settings.dfy`): the settings block as one immutable
  `SearchConfig` value (`Shipped` holds the script's constants). The two
  float multipliers are exact ratios with floor and ceiling division.
- `Sequences` (`sequences.dfy`): `sum`, `set`, `sorted`, and the
  lexicographic order Python uses on tuples.
- `SetGenerator` (`set_generator.dfy`): `generate_sets` and its nested
  `generate_next_durations_with_append`.
  - The nested helper is the pair of mutually recursive functions `Extend`
    (one call) and `ExtendEach` (its `for` loop over the window
    `[Lower, Upper]`).
  - `generate_sets` itself is `SetsOfSize` (one set size),
    `SetsForSizes` (the loop over the sizes) and `GenerateSets`.
  - All return the generator's output as a finite sequence.
  - The model defines the admissible sets independently
    (`IsDurationSet`) and proves that the enumeration produces exactly
    those sets, each once, shortest first and then in lexicographic order.
- `PoolAnalyzer` (`pool_analyzer.dfy`): `generate_pools`.
  - `CombinationsWithReplacement` enumerates the pools.
  - The dictionary loop (`GroupPools`, one turn is `AddPool`), the
    used-durations loops (`CollectUsed`) and the filter loop (`FilterPools`,
    one test is `KeepBucket`) are methods with loop invariants.
  - They are proved equal to the functions `GroupBySum`, `UsedValues` and
    `FilterBuckets`; `PoolsFiltered` composes them, and the method
    `GeneratePools` is proved equal to it.
  - The dictionary is a `SumDict`: a key order plus a map, so Python's
    insertion order is explicit.
  - The lemmas state what the buckets contain, how their keys are ordered,
    and when a bucket survives the filter.
- `WorkedExample` (`worked_example.dfy`): the example in the script's
  header comment. The model proves that the set (1, 2, 4, 7, 10, 15) is
  generated under the shipped settings. It also proves that with pool
  length 4 the set yields exactly the buckets for sums 18, 19 and 20 listed
  there, in that order.
- `Search` (`search.dfy`): lemmas about the composition of the two stages.
  For every generated set, each bucket `generate_pools` keeps is
  duplicate-free, and the shipped settings meet the lemma's conditions.
  The entry point's loops (`pool_length_range`, the `len(pools) != 0`
  test) are not modelled.

## Model

| member | source | states |
|---|---|---|
| Utils.PyRange | scripts/durations_set_searcher.py:43 | `range(start, stop, step)` with non-zero step is the arithmetic progression from `start` that stays strictly before `stop` and cannot be extended by one more step |
| Utils.RangeInclusive | scripts/durations_set_searcher.py:42-43 | with a positive step every element lies in `[start, end]` and the next step passes `end`; with step 1 it has `end - start + 1` elements (none if `start > end`) and holds exactly the integers of `[start, end]` |
| Utils.RangeInclusiveTuple | scripts/durations_set_searcher.py:45-46 | a `(start, end)` range lists every integer from `start` to `end` in increasing order, and no other integer |
| Utils.InRangeInclusiveTuple | scripts/durations_set_searcher.py:48-49 | `in_range_inclusive_tuple` on an integer: `start <= value <= end`; `KeepBucket` uses it for the sum check, and `FilterBucketsMeaning` states its effect |
| Settings.FloorMulIsFloor | scripts/durations_set_searcher.py:90 | `FloorMul(a, m)` is the greatest integer not above the exact product `a * m` |
| Settings.CeilMulIsCeil | scripts/durations_set_searcher.py:96 | `CeilMul(a, m)` is the least integer not below the exact product `a * m` |
| Sequences.SortAscending | scripts/durations_set_searcher.py:108 | `sorted` returns a non-decreasing arrangement of the same multiset of elements |
| Sequences.Sum | scripts/durations_set_searcher.py:128 | `sum(pool)`, summing from the left; `SumOfFour` in the worked example gives its value on four durations, and `GroupBySumBuckets` uses it as the bucket key |
| Sequences.Elements | scripts/durations_set_searcher.py:153 | `set(s)`, built one element at a time, holds exactly the elements of `s` |
| SetGenerator.Lower | scripts/durations_set_searcher.py:86-91 | the start of the window after the last element; `WindowMeans` states what it admits |
| SetGenerator.Upper | scripts/durations_set_searcher.py:93-97 | the end of the window after the last element; `WindowMeans` states what it admits |
| SetGenerator.WindowMeans | scripts/durations_set_searcher.py:79-97 | `b` lies in the window `[Lower, Upper]` exactly when `b` is in the duration range and, if there is a last element `a`, `a + min_diff <= b`, `floor(a * min_mult) <= b` and `b <= ceil(a * max_mult)` |
| SetGenerator.CompletionInWindow | scripts/durations_set_searcher.py:99-101 | every admissible completion of `current` has its next element inside the window, so pruning an empty window loses no set |
| SetGenerator.Extend | scripts/durations_set_searcher.py:67-106 | `generate_next_durations_with_append(current, append_count)` as a finite sequence; `ExtendSound`, `ExtendComplete` and `ExtendSorted` give its meaning |
| SetGenerator.ExtendEach | scripts/durations_set_searcher.py:103-106 | the `for next_duration ...: yield from ...` loop over the window; its meaning comes from `ExtendEachSound`, `ExtendEachComplete` and `ExtendEachSorted`, which the `Extend` lemmas use |
| SetGenerator.ExtendSound | scripts/durations_set_searcher.py:67-106 | every sequence produced from `current` with `append_count` steps is `current` followed by exactly `append_count` admissible elements (`current` itself when the count is not positive) |
| SetGenerator.ExtendComplete | scripts/durations_set_searcher.py:67-106 | every extension of `current` by `append_count` admissible elements is produced |
| SetGenerator.ExtendSorted | scripts/durations_set_searcher.py:103-106 | the produced sequences are in strictly increasing lexicographic order, so none is produced twice |
| SetGenerator.ExtendEachSound | scripts/durations_set_searcher.py:103-106 | every sequence the loop over window candidates produces is `current` followed by one of the candidates and then `append_count - 1` more admissible elements |
| SetGenerator.ExtendEachComplete | scripts/durations_set_searcher.py:103-106 | every admissible extension whose next element is one of the candidates is produced by the loop |
| SetGenerator.ExtendEachSorted | scripts/durations_set_searcher.py:103-106 | for strictly increasing candidates from the window, the loop produces its sequences in strictly increasing lexicographic order |
| SetGenerator.SetsOfSize | scripts/durations_set_searcher.py:58-65 | the sets of one size; `SetsOfSizeExact` gives its meaning |
| SetGenerator.SetsForSizes | scripts/durations_set_searcher.py:56 | the outer loop over the set sizes; `SetsForSizesExact` and `SetsForSizesOrdered` give its meaning |
| SetGenerator.GenerateSets | scripts/durations_set_searcher.py:53-109 | `generate_sets()` as a finite sequence; `GenerateSetsExact`, `GenerateSetsOrdered`, `GeneratedOnce` and `ForcedPrefixSets` give its meaning |
| SetGenerator.SetsOfSizeExact | scripts/durations_set_searcher.py:56-65 | the sets of one size are exactly the admissible extensions of the sorted forced durations to that size: none when the size is below the prefix length, the sorted prefix alone when it equals it |
| SetGenerator.SetsForSizesExact | scripts/durations_set_searcher.py:56-109 | over a list of sizes, a sequence is produced exactly when its length is one of the sizes and it is an admissible extension of the sorted forced durations |
| SetGenerator.SetsForSizesOrdered | scripts/durations_set_searcher.py:56-109 | for strictly increasing sizes the output comes shorter first and, within one size, in strictly increasing lexicographic order |
| SetGenerator.GenerateSetsExact | scripts/durations_set_searcher.py:53-109 | a sequence is generated exactly when its length is in `duration_set_size_range`, it starts with the sorted forced durations and every later element is admissible after its predecessor |
| SetGenerator.GenerateSetsOrdered | scripts/durations_set_searcher.py:56-109 | the generated sets come shorter first and, within one size, in strictly increasing lexicographic order |
| SetGenerator.GeneratedOnce | scripts/durations_set_searcher.py:53-109 | no set is generated twice |
| SetGenerator.ForcedPrefixSets | scripts/durations_set_searcher.py:58-65 | the sorted forced durations are generated exactly when their length is an allowed size, and they are then the only set of that size; every generated set is at least as long as the prefix and starts with it |
| SetGenerator.GeneratedSetsIncrease | scripts/durations_set_searcher.py:54 | with `min_diff >= 1` every generated set is sorted from low to high, and strictly increasing from the first appended element on |
| SetGenerator.GeneratedStrict | scripts/durations_set_searcher.py:54 | with `min_diff >= 1` and distinct forced durations, every generated set is strictly increasing, so its durations are pairwise distinct |
| PoolAnalyzer.CombinationsWithReplacement | scripts/durations_set_searcher.py:120 | `itertools.combinations_with_replacement(durations_set, pool_length)`; `CombinationsShape`, `CombinationsComplete` and `CombinationsSorted` give its meaning |
| PoolAnalyzer.CombinationsShape | scripts/durations_set_searcher.py:120 | every pool has exactly `pool_length` elements, all drawn from the set, and is non-decreasing when the set is |
| PoolAnalyzer.CombinationsComplete | scripts/durations_set_searcher.py:120 | every non-decreasing sequence of `pool_length` elements of a sorted set is enumerated |
| PoolAnalyzer.CombinationsSorted | scripts/durations_set_searcher.py:120 | for a strictly increasing set the pools come in strictly increasing lexicographic order, so no pool appears twice |
| PoolAnalyzer.Put | scripts/durations_set_searcher.py:130-133 | `d[key] = value` replaces the value and appends the key to the order only when the key is new |
| PoolAnalyzer.AddPool | scripts/durations_set_searcher.py:128-133 | one turn of the grouping loop: open a bucket for a new sum or append to the existing one; `GroupBySumBuckets` and `GroupBySumOrder` state the result of all turns |
| PoolAnalyzer.GroupBySum | scripts/durations_set_searcher.py:124-133 | the grouped dictionary lists every key once and has a value for exactly the keys in its order |
| PoolAnalyzer.PoolsWithSum | scripts/durations_set_searcher.py:128-133 | a bucket holds exactly the pools whose sum is its key |
| PoolAnalyzer.FirstWithSumIsFirst | scripts/durations_set_searcher.py:130-131 | the index of the first pool with a given sum: that pool has the sum and no earlier pool has it |
| PoolAnalyzer.GroupBySumKeys | scripts/durations_set_searcher.py:126-133 | a sum is a key exactly when some pool has that sum |
| PoolAnalyzer.GroupBySumBuckets | scripts/durations_set_searcher.py:126-133 | the bucket of each key lists exactly the pools with that sum, in enumeration order |
| PoolAnalyzer.GroupBySumOrder | scripts/durations_set_searcher.py:124-133 | the keys are ordered by the position of the first pool with each sum |
| PoolAnalyzer.GroupPools | scripts/durations_set_searcher.py:124-133 | the grouping loop, with its in-place appends, builds the dictionary `GroupBySum` describes |
| PoolAnalyzer.UsedValues | scripts/durations_set_searcher.py:148-151 | the set of durations used by a bucket holds exactly the elements of its pools |
| PoolAnalyzer.CollectUsed | scripts/durations_set_searcher.py:148-151 | the nested loops with `.add` collect exactly the durations used by the bucket |
| PoolAnalyzer.KeepBucket | scripts/durations_set_searcher.py:139-154 | the three checks of the filter loop (sum in range, enough pools, every duration used); `FilterBucketsMeaning` states that a bucket is kept exactly when they pass |
| PoolAnalyzer.FilterBuckets | scripts/durations_set_searcher.py:136-157 | the filtered dictionary lists every key once and has a value for exactly the keys in its order |
| PoolAnalyzer.FilterBucketsMeaning | scripts/durations_set_searcher.py:136-157 | a key is kept exactly when its sum is in the target range, it has at least the minimum number of pools and its pools use every duration of the set; a kept bucket is unchanged |
| PoolAnalyzer.FilterBucketsOrdered | scripts/durations_set_searcher.py:136-157 | filtering keeps the relative order of the surviving keys |
| PoolAnalyzer.FilterPools | scripts/durations_set_searcher.py:136-157 | the filter loop builds the dictionary `FilterBuckets` describes |
| PoolAnalyzer.PoolsFiltered | scripts/durations_set_searcher.py:112-159 | the result of `generate_pools`; `PoolsFilteredMeaning` and `KeptPools` give its meaning, and `GeneratePools` is proved equal to it |
| PoolAnalyzer.PoolsFilteredMeaning | scripts/durations_set_searcher.py:112-159 | a sum is a key of the result exactly when some pool has it and its bucket meets all three conditions; its value is the list of all pools with that sum in enumeration order; the keys come in first-occurrence order |
| PoolAnalyzer.KeptPools | scripts/durations_set_searcher.py:120-157 | every pool of a kept bucket has `pool_length` elements from the set and has the bucket's sum; it is non-decreasing for a sorted set, and the bucket is duplicate-free for a strictly increasing set |
| PoolAnalyzer.PoolLengthOne | scripts/durations_set_searcher.py:120-154 | with pool length 1 over a strictly increasing set, a kept bucket is the single pool `[t]` with `t` in the set, so it is kept only when `min_pools_with_the_same_sum` is at most 1 |
| PoolAnalyzer.PoolLengthOneEmpty | scripts/durations_set_searcher.py:120-154 | with pool length 1 over a strictly increasing set and a minimum count above 1, the result is empty |
| PoolAnalyzer.SingletonSet | scripts/durations_set_searcher.py:120-157 | over a one-element set `[d]` a kept bucket holds only the pool of `k` copies of `d`, its sum is `k * d`, and it is kept only when `min_pools_with_the_same_sum` is at most 1 |
| PoolAnalyzer.SingletonSetUsesAll | scripts/durations_set_searcher.py:147-154 | over `[d]` with pool length at least 1, every non-empty bucket uses every duration of the set |
| PoolAnalyzer.PoolsWithSumSorted | scripts/durations_set_searcher.py:128-133 | a bucket of a lexicographically sorted enumeration is itself sorted |
| PoolAnalyzer.GeneratePools | scripts/durations_set_searcher.py:112-159 | `generate_pools` returns the filtered dictionary: every kept bucket meets the three conditions and is the list of all pools with its sum; the keys come in first-occurrence order |
| Search.GeneratedSetPoolsDistinct | scripts/durations_set_searcher.py:179-181 | for a set from `generate_sets` (`min_diff >= 1`, distinct forced durations), every bucket `generate_pools` keeps is in strictly increasing lexicographic order, so no pool appears twice |
| Search.ShippedQualifies | scripts/durations_set_searcher.py:29-34 | the shipped settings satisfy those conditions: `min_diff` is 2 and the sorted forced durations (1, 2) are distinct |
| WorkedExample.Listed | scripts/durations_set_searcher.py:21-23 | the header lists pools for exactly the sums 18, 19 and 20 |
| WorkedExample.ExampleBucket | scripts/durations_set_searcher.py:19-23 | for (1, 2, 4, 7, 10, 15) and pool length 4 the pools with sum 18, 19 or 20 are exactly the ones the header lists, in that order |
| WorkedExample.ListedUsesAll | scripts/durations_set_searcher.py:147-154 | each of the three listed buckets uses every duration of the set |
| WorkedExample.ExampleKept | scripts/durations_set_searcher.py:36-38 | under the shipped settings the buckets for 18, 19 and 20 pass all three conditions |
| WorkedExample.ExampleDropped | scripts/durations_set_searcher.py:139-154 | every other sum is dropped: sums above 20 are out of range, smaller sums never use 15 |
| WorkedExample.ExampleFirsts | scripts/durations_set_searcher.py:124-133 | in the enumeration the first pool with sum 18 comes before the first with 19, which comes before the first with 20 |
| WorkedExample.ExampleOrder | scripts/durations_set_searcher.py:21-23 | the result lists the sums in the order 18, 19, 20 |
| WorkedExample.ExamplePools | scripts/durations_set_searcher.py:19-23 | for any sequence equal to the example set, the result is the dictionary of the header comment |
| WorkedExample.HeaderExample | scripts/durations_set_searcher.py:19-23 | `generate_pools((1, 2, 4, 7, 10, 15), 4)` under the shipped settings is exactly the dictionary of the header comment |
| WorkedExample.ExampleSetGenerated | scripts/durations_set_searcher.py:19 | the example set is one of the sets `generate_sets` produces under the shipped settings |

## Left out

- `main` and `print_pools` (console output, `input()`, exception printing) are not part of this model.
- The float settings `durations_min_mult` and `durations_max_mult` are exact ratios, and `math.floor` and `math.ceil` work on the exact product. This replaces IEEE floating point. The two agree for the shipped 1.5 and 4.0, which are exact in binary, but may differ for other multipliers.
- Generator laziness (`yield`, `yield from`) is not modelled. Both generators are finite sequences holding what the generator yields, in order.
- `itertools.combinations_with_replacement` is library code. It is modelled by a recursive definition that reproduces its documented output order.
- Utils.PyRange: requires a non-zero step. Python raises `ValueError` for step 0, and the script never passes one.
- PoolAnalyzer.GeneratePools: takes `pool_length` as a natural number. Python raises `ValueError` for a negative length.
- Utils.RangeInclusiveTuple: models only the two-element `(start, end)` form. The three-element form with a step is not used by any setting.
- Utils.InRangeInclusiveTuple: is stated on integers. The script calls it only with integer sums.
- `pools_filtered[total_duration] = pool_list` shares the list object with `pools_by_total_duration`. The model works on values, so this aliasing is not represented; nothing changes the list afterwards.
- The other scripts of the repository (SVG generation, sequence generators, the repository filter maker, matrix file I/O) are not part of this model.
