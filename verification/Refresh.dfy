/** `get_dataset` and `get_pool` as they run, on dictionaries that callers may hold on to. */
module Refresh {
  import opened Wire
  import opened Json
  import opened Normalize
  import opened Mapping
  import opened Capacity
  import opened Pools

  // ---------------------------------------------------------------- topology errors

  /** `_apply_pool_errors` */
  method ApplyPoolErrors(pools: Endpoint, raw: seq<Json>, t: Tables)
    requires pools.Valid() && AllRecords(pools.rows) && NoneKey !in pools.rows
    modifies pools`rows, pools.repr
    ensures pools.Valid() && pools.rows == WithErrors(old(pools.rows), raw, t)
  {
    for i := 0 to |raw|
      invariant pools.Valid() && pools.rows == WithErrors(old(pools.rows), raw[..i], t)
    {
      assert raw[..i + 1] == raw[..i] + [raw[i]];
      ErrorsSnoc(old(pools.rows), raw[..i], raw[i], t);
      ApplyErrorsOf(pools, raw[i], t);
    }
    assert raw[..|raw|] == raw;
  }

  /** The loop's body. */
  method ApplyErrorsOf(pools: Endpoint, raw: Json, t: Tables)
    requires pools.Valid() && AllRecords(pools.rows) && NoneKey !in pools.rows
    modifies pools`rows, pools.repr
    ensures pools.Valid() && pools.rows == Charged(old(pools.rows), raw, t)
  {
    if raw.Obj? {
      var uid := KeyOf(Get(raw.fields, "guid"));
      if uid.Some? && uid.value in pools.slots {
        assert pools.Holds(uid.value);
        SetErrors(pools.slots[uid.value].record, t.errors(Get(raw.fields, "topology")));
        pools.Written(uid.value);
      }
    }
  }

  method SetErrors(pool: Record, counts: (int, int, int))
    modifies pool
    ensures pool.fields == old(pool.fields) + ErrorFields(counts)
  {
    pool.fields := pool.fields["read_errors" := Int(counts.0)];
    pool.fields := pool.fields["write_errors" := Int(counts.1)];
    pool.fields := pool.fields["checksum_errors" := Int(counts.2)];
    pool.fields := pool.fields["errors" := Int(counts.0 + counts.1 + counts.2)];
  }

  // ---------------------------------------------------------------- root datasets

  /** The lookup refers to the dataset records themselves. */
  type Lookup = map<string, Record>

  /** `lookup` refers to records of `datasets`, and `index` has what they hold. */
  ghost predicate Refers(lookup: Lookup, index: Index, datasets: Endpoint)
    reads datasets, lookup.Values
  {
    && lookup.Keys == index.Keys && lookup.Values <= datasets.repr
    && forall path :: path in lookup ==> lookup[path].fields == index[path]
  }

  /** `dataset` is the record of a dataset mounted at `path`. */
  ghost predicate FoundAt(datasets: Endpoint, dataset: Record, path: string)
    reads datasets, dataset
  {
    exists k :: && k in datasets.slots && k in datasets.rows && datasets.slots[k] == Ref(dataset)
                && MountedAt(datasets.rows[k], path) && datasets.rows[k].fields == dataset.fields
  }

  /** The mountpoint lookup; dictionaries are walked in some order. */
  method BuildIndex(datasets: Endpoint) returns (lookup: Lookup, ghost index: Index)
    requires datasets.Valid() && AllRecords(datasets.rows)
    ensures Refers(lookup, index, datasets) && IsIndex(index, datasets.rows)
    ensures forall k, path :: k in datasets.rows && MountedAt(datasets.rows[k], path) ==> path in lookup
    ensures forall path :: path in lookup ==> FoundAt(datasets, lookup[path], path)
  {
    lookup, index := map[], map[];
    var todo := datasets.slots.Keys;
    while todo != {}
      invariant todo <= datasets.rows.Keys && Refers(lookup, index, datasets)
      invariant forall k, path :: k in datasets.rows && k !in todo && MountedAt(datasets.rows[k], path) ==>
        path in index
      invariant forall path :: path in lookup ==> FoundAt(datasets, lookup[path], path)
      decreases todo
    {
      var k :| k in todo;
      assert datasets.Holds(k);
      var dataset := datasets.slots[k].record;
      var mountpoint := Get(dataset.fields, "mountpoint");
      if mountpoint.Str? && mountpoint.s !in ["", "unknown"] {
        assert MountedAt(datasets.rows[k], mountpoint.s);
        lookup, index := lookup[mountpoint.s := dataset], index[mountpoint.s := dataset.fields];
      }
      todo := todo - {k};
    }
  }

  /** The record of a pool's root dataset. */
  method FindRoot(lookup: Lookup, ghost index: Index, datasets: Endpoint, pool: Record) returns (root: Option<Record>)
    requires datasets.Valid() && AllRecords(datasets.rows) && Refers(lookup, index, datasets)
    ensures FieldsOf(root) == RootOf(index, datasets.rows, pool.fields)
    ensures root.Some? ==> root.value in datasets.repr
  {
    var path := Get(pool.fields, "path");
    if path.Str? && path.s in lookup {
      assert lookup[path.s] in lookup.Values;
      return Some(lookup[path.s]);
    }
    var name := KeyOf(Get(pool.fields, "name"));
    if name.Some? && name.value in datasets.slots {
      assert datasets.Holds(name.value);
      return Some(datasets.slots[name.value].record);
    }
    return None;
  }

  /** `_apply_pool_capacity`, and the fragmentation. */
  method FinishPool(pool: Record, root: Option<Record>)
    modifies pool
    ensures pool.fields == Finished(old(pool.fields), old(FieldsOf(root)))
  {
    SetCapacity(pool, root);
    CapacityFrame(old(pool.fields), old(FieldsOf(root)), "fragmentation");
    pool.fields := pool.fields["fragmentation" := Int(ToInt(Get(pool.fields, "fragmentation")))];
  }

  /** The two maps of a `get_pool` share no record. */
  ghost predicate Unshared(pools: Endpoint, datasets: Endpoint)
    reads pools, datasets, pools.repr, datasets.repr
  {
    pools.Valid() && datasets.Valid() && AllRecords(datasets.rows) && pools != datasets && pools.repr !! datasets.repr
  }

  /** `FinishPool` on the record under `k`. */
  method FinishAt(pools: Endpoint, k: Key, root: Option<Record>)
    requires pools.Valid() && k in pools.slots && pools.slots[k].Ref?
    modifies pools`rows, pools.repr
    ensures pools.Valid() && old(pools.rows)[k].Rec?
    ensures pools.rows == old(pools.rows)[k := Rec(Finished(old(pools.rows)[k].fields, old(FieldsOf(root))))]
  {
    assert pools.Holds(k);
    FinishPool(pools.slots[k].record, root);
    pools.Written(k);
  }

  /** The body of the capacity loop; `used` is whether the pool has a root dataset. */
  method FinishOne(pools: Endpoint, k: Key, lookup: Lookup, ghost index: Index, datasets: Endpoint) returns (used: bool)
    requires Unshared(pools, datasets) && Refers(lookup, index, datasets) && k in pools.slots && pools.slots[k].Ref?
    modifies pools`rows, pools.repr
    ensures Unshared(pools, datasets) && Refers(lookup, index, datasets)
    ensures used == HasRoot(old(pools.rows)[k], index, datasets.rows)
    ensures pools.rows == old(pools.rows)[k := FinishedCell(old(pools.rows)[k], index, datasets.rows)]
  {
    assert pools.Holds(k) && lookup.Values !! pools.repr;
    var root := FindRoot(lookup, index, datasets, pools.slots[k].record);
    used := root.Some?;
    FinishAt(pools, k, root);
    assert datasets.Valid();
  }

  /** The records while the capacity loop runs: those of `todo` are still as they were. */
  ghost function PartlyFinished(raw: Rows, todo: set<Key>, index: Index, datasets: Rows): Rows {
    map k | k in raw :: if k in todo then raw[k] else FinishedCell(raw[k], index, datasets)
  }

  /** Whether one of the records no longer in `todo` has a root dataset. */
  ghost predicate RootSeen(raw: Rows, todo: set<Key>, index: Index, datasets: Rows) {
    exists k :: k in raw && k !in todo && HasRoot(raw[k], index, datasets)
  }

  lemma LoopEnds(raw: Rows, index: Index, datasets: Rows)
    ensures PartlyFinished(raw, raw.Keys, index, datasets) == raw && !RootSeen(raw, raw.Keys, index, datasets)
    ensures PartlyFinished(raw, {}, index, datasets) == Finish(raw, index, datasets)
    ensures RootSeen(raw, {}, index, datasets) == AnyRoot(raw, index, datasets)
  {}

  lemma LoopStep(raw: Rows, todo: set<Key>, k: Key, index: Index, datasets: Rows)
    requires k in todo && k in raw
    ensures PartlyFinished(raw, todo, index, datasets)[k] == raw[k]
    ensures PartlyFinished(raw, todo, index, datasets)[k := FinishedCell(raw[k], index, datasets)]
         == PartlyFinished(raw, todo - {k}, index, datasets)
    ensures RootSeen(raw, todo - {k}, index, datasets)
         == (RootSeen(raw, todo, index, datasets) || HasRoot(raw[k], index, datasets))
  {
    if RootSeen(raw, todo, index, datasets) {
      var k' :| k' in raw && k' !in todo && HasRoot(raw[k'], index, datasets);
      assert k' !in todo - {k};
    }
  }

  /** The lookup and the capacity loop of `get_pool`; `stale` is whether an outdated dataset was used. */
  method FinishPools(pools: Endpoint, datasets: Endpoint, outdated: bool) returns (stale: bool, ghost index: Index)
    requires Unshared(pools, datasets) && AllRecords(pools.rows)
    modifies pools`rows, pools.repr
    ensures Unshared(pools, datasets) && IsIndex(index, datasets.rows)
    ensures pools.rows == Finish(old(pools.rows), index, datasets.rows)
    ensures stale <==> outdated && AnyRoot(old(pools.rows), index, datasets.rows)
  {
    var lookup;
    lookup, index := BuildIndex(datasets);
    var seen := false;
    var todo := pools.slots.Keys;
    ghost var raw := pools.rows;
    LoopEnds(raw, index, datasets.rows);
    while todo != {}
      invariant todo <= raw.Keys && Unshared(pools, datasets) && Refers(lookup, index, datasets)
      invariant pools.rows == PartlyFinished(raw, todo, index, datasets.rows)
      invariant seen == RootSeen(raw, todo, index, datasets.rows)
      decreases todo
    {
      var k :| k in todo;
      LoopStep(raw, todo, k, index, datasets.rows);
      assert pools.Holds(k) && raw[k].Rec?;
      var used := FinishOne(pools, k, lookup, index, datasets);
      seen := seen || used;
      todo := todo - {k};
    }
    stale := outdated && seen;
  }

  // ---------------------------------------------------------------- the state

  lemma BootRecords(published: Rows, bootUid: Option<Key>, pools: Rows, boot: Json, t: Tables)
    requires AllRecords(published) && AllRecords(pools)
    ensures AllRecords(WithBoot(published, bootUid, pools, boot, t))
  {
    ParsedOk(pools, NamedBoot(boot), PoolConfig(t, false));
  }

  class TrueNASState {
    var pool: Endpoint
    var dataset: Endpoint
    var failing: set<Flag>
    var bootUid: Option<Key>
    const tables: Tables

    constructor (tables: Tables)
      ensures Valid() && View() == EMPTY && this.tables == tables
    {
      this.tables := tables;
      pool := new Endpoint();
      dataset := new Endpoint();
      failing := {};
      bootUid := None;
    }

    ghost function View(): Store
      reads this, pool, dataset
    {
      Store(pool.rows, dataset.rows, failing, bootUid)
    }

    /** No record is in both maps, or in one of them twice. */
    ghost predicate Valid()
      reads this, pool, dataset, pool.repr, dataset.repr
    {
      Unshared(pool, dataset) && StoreOk(View())
    }

    method NoteFallbackOutcome(flag: Flag, failed: bool)
      modifies this`failing
      ensures failing == Noted(old(failing), flag, failed)
    {
      if failed {
        if flag !in failing {
          failing := failing + {flag};
        }
      } else {
        failing := failing - {flag};
      }
    }

    /** `_compute_dataset`: the next dataset map, built on a deep copy. */
    method ComputeDataset(raw: Json) returns (datasets: Endpoint)
      requires dataset.Valid() && AllRecords(dataset.rows)
      modifies this`failing
      ensures datasets.Valid() && fresh(datasets) && fresh(datasets.repr)
      ensures datasets.rows == Fetched(dataset.rows, raw, tables) && AllRecords(datasets.rows)
      ensures failing == Noted(old(failing), DatasetQuery, !Usable(raw, DatasetConfig(tables)))
    {
      NoteFallbackOutcome(DatasetQuery, !Usable(raw, DatasetConfig(tables)));
      datasets := ParseCopy(dataset, raw, DatasetConfig(tables));
      ParsedOk(dataset.rows, raw, DatasetConfig(tables));
    }

    /** `get_dataset`. The map it publishes shares nothing with the one before, and neither that map
        nor any record in it is touched. */
    method RefreshDataset(raw: Response)
      requires Valid()
      modifies this
      ensures Valid() && View() == After(old(View()), GetDataset(raw), tables)
      ensures pool == old(pool)
      ensures if raw.Answer? then fresh(dataset) && fresh(dataset.repr) else dataset == old(dataset)
      ensures unchanged(old(pool), old(dataset), old(pool.repr), old(dataset.repr))
    {
      AfterOk(View(), GetDataset(raw), tables);
      if raw.Answer? {
        dataset := ComputeDataset(raw.json);
        failing := failing - {NotPublished};
      }
    }

    /** The pools of a well-formed `pool.query`, built on a deep copy. */
    method QueryPools(raw: Json) returns (pools: Endpoint)
      requires pool.Valid() && AllRecords(pool.rows) && NoneKey !in pool.rows && raw.List?
      ensures pools.Valid() && fresh(pools) && fresh(pools.repr)
      ensures pools.rows == Queried(pool.rows, raw, tables) && AllRecords(pools.rows) && NoneKey !in pools.rows
    {
      pools := ParseCopy(pool, raw, PoolConfig(tables, true));
      ParsedOk(pool.rows, raw, PoolConfig(tables, true));
      QueriedOk(pool.rows, raw, tables);
      ApplyPoolErrors(pools, raw.items, tables);
    }

    /** The boot pool's answer, merged into `pools`. */
    method MergeBoot(pools: Endpoint, raw: Json) returns (result: Endpoint)
      requires pools.Valid() && AllRecords(pools.rows) && NoneKey !in pools.rows
      modifies pools, pools.repr
      ensures result.Valid() && fresh(result.repr - old(pools.repr)) && (result == pools || fresh(result))
      ensures result.rows == WithErrors(Parsed(old(pools.rows), raw, PoolConfig(tables, false)), [raw], tables)
    {
      ParsedOk(pools.rows, raw, PoolConfig(tables, false));
      result := ParseApi(pools, raw, PoolConfig(tables, false));
      ApplyPoolErrors(result, [raw], tables);
    }

    /** The boot-pool entry that was published, in a record of its own. */
    method CarryOver(pools: Endpoint)
      requires pool.Valid() && AllRecords(pool.rows) && pools.Valid() && pools != pool
      requires bootUid.Some? && bootUid.value in pool.rows
      modifies pools
      ensures pools.Valid() && fresh(pools.repr - old(pools.repr))
      ensures pools.rows == old(pools.rows)[bootUid.value := pool.rows[bootUid.value]]
    {
      assert pool.Holds(bootUid.value);
      var copy := new Record(pool.slots[bootUid.value].record.fields);
      pools.Put(bootUid.value, copy);
    }

    /** `_add_boot_pool`, on a map of its caller's own. */
    method AddBootPool(pools: Endpoint, raw: Json) returns (result: Endpoint)
      requires pool.Valid() && AllRecords(pool.rows)
      requires pools.Valid() && AllRecords(pools.rows) && NoneKey !in pools.rows
      requires pools != pool && pools.repr !! pool.repr
      modifies pools, pools.repr, this`failing, this`bootUid
      ensures result.Valid() && fresh(result.repr - old(pools.repr)) && (result == pools || fresh(result))
      ensures result.rows == WithBoot(pool.rows, old(bootUid), old(pools.rows), raw, tables)
      ensures failing == BootFailing(old(failing), pool.rows, old(bootUid), raw, tables)
      ensures bootUid == BootUid(old(bootUid), raw, tables)
    {
      if BootGuid(raw, tables).Some? {
        result := TakeBoot(pools, raw);
      } else {
        result := pools;
        StandIn(pools);
      }
    }

    /** The boot pool's answer is usable, and becomes the remembered one. */
    method TakeBoot(pools: Endpoint, raw: Json) returns (result: Endpoint)
      requires pools.Valid() && AllRecords(pools.rows) && NoneKey !in pools.rows && BootGuid(raw, tables).Some?
      modifies pools, pools.repr, this`failing, this`bootUid
      ensures result.Valid() && fresh(result.repr - old(pools.repr)) && (result == pools || fresh(result))
      ensures result.rows == WithErrors(Parsed(old(pools.rows), NamedBoot(raw), PoolConfig(tables, false)),
                                        [NamedBoot(raw)], tables)
      ensures failing == old(failing) - {BootPool} && bootUid == BootGuid(raw, tables)
    {
      bootUid := BootGuid(raw, tables);
      result := MergeBoot(pools, NamedBoot(raw));
      NoteFallbackOutcome(BootPool, false);
    }

    /** The boot pool's answer is unusable: the entry published before stands in for it, if there is one. */
    method StandIn(pools: Endpoint)
      requires pool.Valid() && AllRecords(pool.rows) && pools.Valid() && pools != pool
      modifies pools, this`failing
      ensures pools.Valid() && fresh(pools.repr - old(pools.repr))
      ensures if bootUid.Some? && bootUid.value in pool.rows
              then && pools.rows == old(pools.rows)[bootUid.value := pool.rows[bootUid.value]]
                   && failing == old(failing) + {BootPool}
              else pools.rows == old(pools.rows) && failing == old(failing)
    {
      if bootUid.Some? && bootUid.value in pool.slots {
        CarryOver(pools);
        NoteFallbackOutcome(BootPool, true);
      }
    }

    /** The part of `get_pool` after the boot pool was added, on maps of its own. */
    method Publish(datasets: Endpoint, pools: Endpoint) returns (ghost index: Index)
      requires Unshared(pools, datasets) && AllRecords(pools.rows)
      modifies this`pool, this`dataset, this`failing, pools`rows, pools.repr
      ensures Unshared(pools, datasets) && pool == pools && dataset == datasets && IsIndex(index, datasets.rows)
      ensures pools.rows == Finish(old(pools.rows), index, datasets.rows)
      ensures failing == Noted(old(failing), PoolCapacity,
                               DatasetQuery in old(failing) && AnyRoot(old(pools.rows), index, datasets.rows))
    {
      var stale;
      stale, index := FinishPools(pools, datasets, DatasetQuery in failing);
      Install(datasets, pools, stale);
    }

    /** Both maps are published together. */
    method Install(datasets: Endpoint, pools: Endpoint, stale: bool)
      modifies this`pool, this`dataset, this`failing
      ensures pool == pools && dataset == datasets && failing == Noted(old(failing), PoolCapacity, stale)
    {
      NoteFallbackOutcome(PoolCapacity, stale);
      dataset, pool := datasets, pools;
    }

    /** The part of `get_pool` after the last answer. */
    method BootAndPublish(datasets: Endpoint, pools: Endpoint, boot: Json) returns (ghost index: Index)
      requires pool.Valid() && AllRecords(pool.rows) && Unshared(pools, datasets)
      requires AllRecords(pools.rows) && NoneKey !in pools.rows && pools != pool && pools.repr !! pool.repr
      modifies this, pools, pools.repr
      ensures Unshared(pool, dataset) && (pool == pools || fresh(pool)) && fresh(pool.repr - old(pools.repr))
      ensures dataset == datasets && IsIndex(index, datasets.rows)
      ensures View() == Published(old(pool.rows), old(bootUid), old(failing), datasets.rows, old(pools.rows), boot,
                                  index, tables)
    {
      BootRecords(pool.rows, bootUid, pools.rows, boot, tables);
      var all := AddBootPool(pools, boot);
      index := Publish(datasets, all);
    }

    /** `get_pool` once a well-formed list of pools is there. */
    method MergePools(datasets: Endpoint, pools: Json, boot: Response) returns (ghost index: Index)
      requires pool.Valid() && AllRecords(pool.rows) && NoneKey !in pool.rows
      requires datasets.Valid() && AllRecords(datasets.rows) && pools.List?
      modifies this
      ensures View() == if boot.Raised? then old(View()).(failing := Lowered(old(failing)))
                        else Published(old(pool.rows), old(bootUid), Lowered(old(failing)), datasets.rows,
                                       Queried(old(pool.rows), pools, tables), boot.json, index, tables)
      ensures if boot.Answer?
              then && dataset == datasets && IsIndex(index, datasets.rows)
                   && Unshared(pool, dataset) && fresh(pool) && fresh(pool.repr)
              else pool == old(pool) && dataset == old(dataset)
    {
      index := map[];
      var queried := QueryPools(pools);
      NoteFallbackOutcome(PoolQuery, false);
      failing := failing - {NotPublished};
      if boot.Answer? {
        index := BootAndPublish(datasets, queried, boot.json);
      }
    }

    /** `get_pool` once the datasets are there. */
    method RefreshPools(datasets: Endpoint, pools: Response, boot: Response) returns (ghost index: Index)
      requires Valid() && datasets.Valid() && AllRecords(datasets.rows)
      modifies this
      ensures View() == AfterDatasets(old(View()), datasets.rows, pools, boot, index, tables)
      ensures if pools.Answer? && boot.Answer? && !Malformed(pools.json, tables)
              then && dataset == datasets && IsIndex(index, datasets.rows)
                   && Unshared(pool, dataset) && fresh(pool) && fresh(pool.repr)
              else pool == old(pool) && dataset == old(dataset)
    {
      index := map[];
      if pools.Answer? {
        if Malformed(pools.json, tables) {
          NoteFallbackOutcome(PoolQuery, true);
          failing := failing + {NotPublished};
        } else {
          index := MergePools(datasets, pools.json, boot);
        }
      }
    }

    /** `get_pool`. Both maps are replaced together by maps and records that are new, or neither is. In
        either case the maps published before, and every record in them, stay as they were. */
    method RefreshPool(datasets: Response, pools: Response, boot: Response) returns (ghost index: Index)
      requires Valid()
      modifies this
      ensures Possible(old(View()), GetPool(datasets, pools, boot, index), tables)
      ensures Valid() && View() == After(old(View()), GetPool(datasets, pools, boot, index), tables)
      ensures if Publishes(GetPool(datasets, pools, boot, index), tables)
              then fresh(pool) && fresh(pool.repr) && fresh(dataset) && fresh(dataset.repr)
              else pool == old(pool) && dataset == old(dataset)
      ensures unchanged(old(pool), old(dataset), old(pool.repr), old(dataset.repr))
    {
      index := map[];
      if datasets.Answer? {
        index := RefreshBoth(datasets, pools, boot);
      }
      AfterOk(old(View()), GetPool(datasets, pools, boot, index), tables);
    }

    /** `get_pool` once it has the first answer. */
    method RefreshBoth(datasets: Response, pools: Response, boot: Response) returns (ghost index: Index)
      requires Valid() && datasets.Answer?
      modifies this
      ensures Possible(old(View()), GetPool(datasets, pools, boot, index), tables)
      ensures View() == After(old(View()), GetPool(datasets, pools, boot, index), tables)
      ensures if Publishes(GetPool(datasets, pools, boot, index), tables)
              then && Unshared(pool, dataset) && fresh(pool) && fresh(pool.repr)
                   && fresh(dataset) && fresh(dataset.repr)
              else pool == old(pool) && dataset == old(dataset)
    {
      var current := ComputeDataset(datasets.json);
      index := RefreshPools(current, pools, boot);
      AfterAnswer(old(View()), datasets, pools, boot, index, tables);
    }
  }

  lemma AfterAnswer(s: Store, datasets: Response, pools: Response, boot: Response, index: Index, t: Tables)
    requires datasets.Answer?
    ensures var input := GetPool(datasets, pools, boot, index);
            var fetched := Fetched(s.dataset, datasets.json, t);
            var noted := s.(failing := Noted(s.failing, DatasetQuery, !Usable(datasets.json, DatasetConfig(t))));
            && After(s, input, t) == AfterDatasets(noted, fetched, pools, boot, index, t)
            && Publishes(input, t) == (pools.Answer? && boot.Answer? && !Malformed(pools.json, t))
            && (Possible(s, input, t) <==> (Publishes(input, t) ==> IsIndex(index, fetched)))
  {}
}
