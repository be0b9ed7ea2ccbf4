/** When "pool" and "dataset" are outdated, told from the answers themselves. */
module Staleness {
  import opened Wire
  import opened Json
  import opened Normalize
  import opened Mapping
  import opened Capacity
  import opened Pools
  import opened Snapshots
  import opened Values
  import opened Contents

  /** Some published pool has a root dataset. */
  predicate AnyRooted(pools: Rows, datasets: Rows) {
    exists k :: k in pools && pools[k].Rec? && HasRootIn(pools[k].fields, datasets)
  }

  lemma AnyRootIff(pools: Rows, index: Index, datasets: Rows)
    requires IsIndex(index, datasets)
    ensures AnyRoot(pools, index, datasets) <==> AnyRooted(Finish(pools, index, datasets), datasets)
  {
    forall k | k in pools && pools[k].Rec?
      ensures HasRoot(pools[k], index, datasets) <==> HasRootIn(Finish(pools, index, datasets)[k].fields, datasets)
    {
      RootIffHas(index, datasets, pools[k].fields);
      FinishedHasRoot(pools[k].fields, RootOf(index, datasets, pools[k].fields), datasets);
    }
  }

  // ---------------------------------------------------------------- "pool"

  /** Why a `get_pool` leaves "pool" outdated: `pool.query` gave no list of pools, or `boot.get_state` gave
      no boot pool while one is remembered, or `pool.dataset.query` gave no datasets while some pool takes
      its figures from one. */
  predicate FallsBack(input: Input, remembered: bool, s': Store)
    requires Silent(input) && input.GetPool?
  {
    || !ListsPools(input.pools.json)
    || (BootKey(input.boot.json).None? && remembered)
    || (!IsAnswer(input.datasets.json, "id") && AnyRooted(s'.pool, s'.dataset))
  }

  lemma FallsBackIff(s: Store, input: Input, t: Tables)
    requires Silent(input) && input.GetPool? && Possible(s, input, t)
    ensures PoolFellBack(s, input, t) <==> FallsBack(input, s.bootUid.Some?, After(s, input, t))
  {
    PublishesIff(input, t);
    UsableIff(input.datasets.json, DatasetConfig(t));
    BootGuidIs(input.boot.json, t);
    if Publishes(input, t) {
      UsesIff(s, input, t);
    }
  }

  lemma UsesIff(s: Store, input: Input, t: Tables)
    requires Publishes(input, t) && Possible(s, input, t)
    ensures UsesDatasets(s, input, t) <==> AnyRooted(After(s, input, t).pool, After(s, input, t).dataset)
  {
    var pools := WithBoot(s.pool, s.bootUid, Queried(s.pool, input.pools.json, t), input.boot.json, t);
    AnyRootIff(pools, input.index, Fetched(s.dataset, input.datasets.json, t));
  }

  /** In every run in which no call raises: "pool" is stale exactly if the last `get_pool` fell back. */
  lemma PoolIsStale(inputs: seq<Input>, t: Tables, i: nat)
    requires PossibleRun(inputs, t) && forall input :: input in inputs ==> Silent(input)
    requires i < |inputs| && Silent(inputs[i]) && IsLastGetPool(inputs, i)
    ensures Stale(Run(inputs, t).failing, "pool")
       <==> FallsBack(inputs[i], Run(inputs[..i], t).bootUid.Some?, Run(inputs[..i + 1], t))
  {
    ExactStaleness(inputs, t);
    LastGetPoolDecides(inputs, t, i);
    assert inputs[..i + 1][..i] == inputs[..i];
    FallsBackIff(Run(inputs[..i], t), inputs[i], t);
  }

  predicate IsLastGetPool(inputs: seq<Input>, i: nat) {
    i < |inputs| && inputs[i].GetPool? && forall j :: i < j < |inputs| ==> inputs[j].GetDataset?
  }

  lemma LastGetPoolDecides(inputs: seq<Input>, t: Tables, i: nat)
    requires IsLastGetPool(inputs, i) && Silent(inputs[i])
    ensures forall j :: LastDecides(PoolQuery, inputs, j, t) <==> j == i
  {
    assert LastDecides(PoolQuery, inputs, i, t);
  }

  /** And "dataset" exactly if the last refresh was given no datasets, or was a `get_pool` that was given
      no list of pools. */
  lemma DatasetIsStale(inputs: seq<Input>, t: Tables, n: nat)
    requires |inputs| == n + 1 && Silent(inputs[n]) && forall input :: input in inputs ==> Silent(input)
    ensures Stale(Run(inputs, t).failing, "dataset")
       <==> !IsAnswer(inputs[n].datasets.json, "id") || (inputs[n].GetPool? && !ListsPools(inputs[n].pools.json))
  {
    ExactStaleness(inputs, t);
    UsableIff(inputs[n].datasets.json, DatasetConfig(t));
    PublishesIff(inputs[n], t);
  }
}
