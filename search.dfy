/** Lemmas about the composition of the two stages: for every generated
    set, each bucket `generate_pools` keeps is duplicate-free, and the
    shipped settings meet the conditions this needs. */
module Search {
  import opened Settings
  import opened Sequences
  import opened SetGenerator
  import opened PoolAnalyzer

  /** A set from `generate_sets` yields buckets without repeated pools,
      provided the forced durations are distinct and the minimum
      difference is at least 1. */
  lemma GeneratedSetPoolsDistinct(cfg: SearchConfig, s: seq<int>, poolLength: nat, t: int)
    requires cfg.minDiff >= 1 && StrictlyIncreasing(SortAscending(cfg.forcedPrefix))
    requires s in GenerateSets(cfg)
    requires t in PoolsFiltered(cfg, s, poolLength).pools
    ensures LexSorted(PoolsFiltered(cfg, s, poolLength).pools[t])
  {
    GeneratedStrict(cfg, s);
    KeptPools(cfg, s, poolLength, t);
  }

  /** The shipped settings meet the conditions above: the forced durations
      1 and 2 are distinct and the minimum difference is 2. */
  lemma ShippedQualifies()
    ensures Shipped.minDiff >= 1 && StrictlyIncreasing(SortAscending(Shipped.forcedPrefix))
  {
    SortedPair(1, 2);
  }
}
