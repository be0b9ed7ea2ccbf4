/** `get_dataset` and `get_pool`: two cached maps, and the flags that say which of them is outdated. */
module Pools {
  import opened Wire
  import opened Json
  import opened Normalize
  import opened Mapping
  import opened Capacity

  /** What a call to the server gives. */
  datatype Response = Answer(json: Json) | Raised

  /** The keys of `_fallback_failing` that belong to "pool" and "dataset". */
  datatype Flag = PoolQuery | BootPool | PoolCapacity | DatasetQuery | NotPublished

  /** The spec tables, and the error totals of a pool's topology. */
  datatype Tables = Tables(datasetVals: seq<Spec>, poolVals: seq<Spec>, poolEnsureVals: seq<Spec>,
                           errors: Json -> (int, int, int))

  /** Datasets by mountpoint. */
  type Index = map<string, Fields>

  datatype Store = Store(pool: Rows, dataset: Rows, failing: set<Flag>, bootUid: Option<Key>)

  const EMPTY := Store(map[], map[], {}, None)

  /** One refresh, with all the answers it is given. `index` is the mountpoint lookup it builds: of
      two datasets at one mountpoint, the source keeps the later one in its map's order. */
  datatype Input =
    | GetDataset(datasets: Response)
    | GetPool(datasets: Response, pools: Response, boot: Response, index: Index)

  function DatasetConfig(t: Tables): Config {
    Config("id", None, t.datasetVals, [], [], [], true)
  }

  function PoolConfig(t: Tables, prune: bool): Config {
    Config("guid", None, t.poolVals, t.poolEnsureVals, [], [], prune)
  }

  /** `_note_fallback_outcome` */
  function Noted(failing: set<Flag>, flag: Flag, failed: bool): set<Flag> {
    if failed then failing + {flag} else failing - {flag}
  }

  /** The flags after a well-formed `pool.query`. */
  function Lowered(failing: set<Flag>): set<Flag> {
    Noted(failing, PoolQuery, false) - {NotPublished}
  }

  /** `stale_endpoints`, as far as these two endpoints go. */
  predicate Stale(failing: set<Flag>, endpoint: string) {
    match endpoint
    case "pool" => PoolQuery in failing || BootPool in failing || PoolCapacity in failing
    case "dataset" => DatasetQuery in failing || NotPublished in failing
    case _ => false
  }

  // ---------------------------------------------------------------- topology errors

  function ErrorFields(counts: (int, int, int)): Fields {
    map["read_errors" := Int(counts.0), "write_errors" := Int(counts.1), "checksum_errors" := Int(counts.2),
        "errors" := Int(counts.0 + counts.1 + counts.2)]
  }

  /** `_apply_pool_errors`: each record takes the totals of the last raw pool with its guid. */
  function WithErrors(pools: Rows, raw: seq<Json>, t: Tables): Rows {
    map k | k in pools :: WithErrorsOf(pools[k], Last(raw, PoolConfig(t, true), k), t)
  }

  function WithErrorsOf(cell: Cell, raw: Option<Fields>, t: Tables): Cell {
    if raw.None? || cell.Junk? then cell
    else Rec(cell.fields + ErrorFields(t.errors(Get(raw.value, "topology"))))
  }

  // ---------------------------------------------------------------- the boot pool

  /** The boot pool's state, given a guid and an id where it has none. */
  function NamedBoot(raw: Json): Json {
    if raw.Obj? && raw.fields != map[] then
      var name := if "name" in raw.fields then raw.fields["name"] else Str("boot-pool");
      Obj(map["guid" := name, "id" := name] + raw.fields)
    else raw
  }

  function BootGuid(raw: Json, t: Tables): Option<Key> {
    Uid(NamedBoot(raw), PoolConfig(t, false))
  }

  /** Whether the previous boot-pool entry has to stand in for this answer. */
  predicate CarriesOver(published: Rows, bootUid: Option<Key>, raw: Json, t: Tables) {
    BootGuid(raw, t).None? && bootUid.Some? && bootUid.value in published
  }

  /** `_add_boot_pool` */
  function WithBoot(published: Rows, bootUid: Option<Key>, pools: Rows, raw: Json, t: Tables): Rows {
    if BootGuid(raw, t).Some? then
      WithErrors(Parsed(pools, NamedBoot(raw), PoolConfig(t, false)), [NamedBoot(raw)], t)
    else if CarriesOver(published, bootUid, raw, t) then pools[bootUid.value := published[bootUid.value]]
    else pools
  }

  function BootFailing(failing: set<Flag>, published: Rows, bootUid: Option<Key>, raw: Json, t: Tables): set<Flag> {
    if BootGuid(raw, t).Some? then failing - {BootPool}
    else if CarriesOver(published, bootUid, raw, t) then failing + {BootPool}
    else failing
  }

  function BootUid(bootUid: Option<Key>, raw: Json, t: Tables): Option<Key> {
    if BootGuid(raw, t).Some? then BootGuid(raw, t) else bootUid
  }

  // ---------------------------------------------------------------- root datasets

  predicate MountedAt(dataset: Cell, path: string) {
    dataset.Rec? && Get(dataset.fields, "mountpoint") == Str(path) && path !in ["", "unknown"]
  }

  /** `index` has every mountpoint, each with some dataset mounted there. */
  ghost predicate IsIndex(index: Index, datasets: Rows) {
    && (forall k, path :: k in datasets && MountedAt(datasets[k], path) ==> path in index)
    && (forall path :: path in index ==>
          exists k :: k in datasets && MountedAt(datasets[k], path) && datasets[k].fields == index[path])
  }

  /** The pool's root dataset: the one mounted at its path, else the one named like it. */
  function RootOf(index: Index, datasets: Rows, pool: Fields): Option<Fields> {
    var path := Get(pool, "path");
    if path.Str? && path.s in index then Some(index[path.s])
    else
      var name := KeyOf(Get(pool, "name"));
      if name.Some? && name.value in datasets then Some(Base(datasets, name.value)) else None
  }

  // ---------------------------------------------------------------- publishing

  /** The published records. */
  function Finish(pools: Rows, index: Index, datasets: Rows): Rows {
    map k | k in pools :: FinishedCell(pools[k], index, datasets)
  }

  function FinishedCell(cell: Cell, index: Index, datasets: Rows): Cell {
    if cell.Rec? then Rec(Finished(cell.fields, RootOf(index, datasets, cell.fields))) else cell
  }

  predicate AnyRoot(pools: Rows, index: Index, datasets: Rows) {
    exists k :: k in pools && HasRoot(pools[k], index, datasets)
  }

  predicate HasRoot(cell: Cell, index: Index, datasets: Rows) {
    cell.Rec? && RootOf(index, datasets, cell.fields).Some?
  }

  predicate Malformed(raw: Json, t: Tables) {
    !raw.List? || !Usable(raw, PoolConfig(t, true))
  }

  /** The dataset map after a `pool.dataset.query`. */
  function Fetched(dataset: Rows, raw: Json, t: Tables): Rows {
    Parsed(dataset, raw, DatasetConfig(t))
  }

  /** The pools of a well-formed `pool.query`, before the boot pool is added. */
  function Queried(pool: Rows, raw: Json, t: Tables): Rows
    requires raw.List?
  {
    WithErrors(Parsed(pool, raw, PoolConfig(t, true)), raw.items, t)
  }

  /** The store a refresh leaves when all three answers came and the pools are well-formed. */
  function Published(published: Rows, bootUid: Option<Key>, failing: set<Flag>, datasets: Rows, pools: Rows, boot: Json,
                     index: Index, t: Tables): Store {
    var all := WithBoot(published, bootUid, pools, boot, t);
    var booted := BootFailing(failing, published, bootUid, boot, t);
    Store(Finish(all, index, datasets), datasets,
          Noted(booted, PoolCapacity, DatasetQuery in booted && AnyRoot(all, index, datasets)),
          BootUid(bootUid, boot, t))
  }

  /** `get_pool` once the datasets are there; where a call raises, the refresh ends. */
  function AfterDatasets(s: Store, datasets: Rows, pools: Response, boot: Response, index: Index, t: Tables): Store {
    if pools.Raised? then s
    else if Malformed(pools.json, t) then s.(failing := s.failing + {PoolQuery, NotPublished})
    else
      var failing := Lowered(s.failing);
      if boot.Raised? then s.(failing := failing)
      else Published(s.pool, s.bootUid, failing, datasets, Queried(s.pool, pools.json, t), boot.json, index, t)
  }

  /** What a refresh does. */
  function After(s: Store, input: Input, t: Tables): Store {
    if input.datasets.Raised? then s
    else
      var raw := input.datasets.json;
      var noted := s.(failing := Noted(s.failing, DatasetQuery, !Usable(raw, DatasetConfig(t))));
      var fetched := Fetched(s.dataset, raw, t);
      match input
      case GetDataset(_) => noted.(dataset := fetched, failing := noted.failing - {NotPublished})
      case GetPool(_, pools, boot, index) => AfterDatasets(noted, fetched, pools, boot, index, t)
  }

  /** Whether a refresh gets as far as publishing pools. */
  predicate Publishes(input: Input, t: Tables) {
    && input.GetPool?
    && input.datasets.Answer? && input.pools.Answer? && input.boot.Answer?
    && !Malformed(input.pools.json, t)
  }

  /** Whether a refresh can have built this mountpoint lookup. */
  ghost predicate Possible(s: Store, input: Input, t: Tables) {
    Publishes(input, t) ==> IsIndex(input.index, Fetched(s.dataset, input.datasets.json, t))
  }

  // ---------------------------------------------------------------- what every refresh keeps

  /** A remembered boot pool is in the published map, and its flag is only up while there is one. */
  predicate StoreOk(s: Store) {
    && AllRecords(s.pool) && AllRecords(s.dataset)
    && NoneKey !in s.pool
    && (s.bootUid.Some? ==> s.bootUid.value in s.pool)
    && (BootPool in s.failing ==> s.bootUid.Some?)
  }

  /** A parsed response has the record of each of its unfiltered uids. */
  lemma BootIsMerged(pools: Rows, boot: Json, t: Tables)
    requires BootGuid(boot, t).Some?
    ensures BootGuid(boot, t).value in Parsed(pools, NamedBoot(boot), PoolConfig(t, false))
  {
    var named := NamedBoot(boot);
    assert Written([named], PoolConfig(t, false)) == {BootGuid(boot, t).value};
  }

  lemma WithBootOk(s: Store, pools: Rows, boot: Json, t: Tables)
    requires StoreOk(s) && AllRecords(pools) && NoneKey !in pools
    ensures var all := WithBoot(s.pool, s.bootUid, pools, boot, t);
            var uid := BootUid(s.bootUid, boot, t);
            AllRecords(all) && NoneKey !in all && (uid.Some? ==> uid.value in all)
  {
    if BootGuid(boot, t).Some? {
      ParsedOk(pools, NamedBoot(boot), PoolConfig(t, false));
      BootIsMerged(pools, boot, t);
    }
  }

  lemma QueriedOk(pool: Rows, raw: Json, t: Tables)
    requires AllRecords(pool) && NoneKey !in pool && raw.List?
    ensures AllRecords(Queried(pool, raw, t)) && NoneKey !in Queried(pool, raw, t)
  {
    ParsedOk(pool, raw, PoolConfig(t, true));
  }

  lemma PublishedOk(s: Store, failing: set<Flag>, datasets: Rows, pools: Rows, boot: Json, index: Index, t: Tables)
    requires StoreOk(s) && AllRecords(datasets) && AllRecords(pools) && NoneKey !in pools
    requires BootPool in failing ==> BootPool in s.failing
    ensures StoreOk(Published(s.pool, s.bootUid, failing, datasets, pools, boot, index, t))
  {
    WithBootOk(s, pools, boot, t);
  }

  /** Every refresh keeps `StoreOk`, whatever the server answers and wherever a call raises. */
  lemma AfterOk(s: Store, input: Input, t: Tables)
    requires StoreOk(s)
    ensures StoreOk(After(s, input, t))
  {
    if input.datasets.Answer? {
      ParsedOk(s.dataset, input.datasets.json, DatasetConfig(t));
      if Publishes(input, t) {
        QueriedOk(s.pool, input.pools.json, t);
        var failing := Noted(s.failing, DatasetQuery, !Usable(input.datasets.json, DatasetConfig(t)));
        PublishedOk(s.(failing := failing), Lowered(failing), Fetched(s.dataset, input.datasets.json, t),
                    Queried(s.pool, input.pools.json, t), input.boot.json, input.index, t);
      }
    }
  }

  /** One raw pool's totals. */
  function Charged(pools: Rows, e: Json, t: Tables): Rows {
    var uid := Uid(e, PoolConfig(t, true));
    if uid.None? || uid.value !in pools then pools
    else pools[uid.value := Rec(Base(pools, uid.value) + ErrorFields(t.errors(Get(e.fields, "topology"))))]
  }

  lemma ErrorsSnoc(pools: Rows, raw: seq<Json>, e: Json, t: Tables)
    requires AllRecords(pools)
    ensures WithErrors(pools, raw + [e], t) == Charged(WithErrors(pools, raw, t), e, t)
  {
    forall k | k in pools
      ensures WithErrors(pools, raw + [e], t)[k] == Charged(WithErrors(pools, raw, t), e, t)[k]
    {
      ErrorsSnocAt(pools[k].fields, raw, e, t, k);
    }
  }

  /** Only the last totals of a record show. */
  lemma ErrorsSnocAt(pool: Fields, raw: seq<Json>, e: Json, t: Tables, k: Key)
    ensures var cfg := PoolConfig(t, true);
            var before := WithErrorsOf(Rec(pool), Last(raw, cfg, k), t);
            var after := WithErrorsOf(Rec(pool), Last(raw + [e], cfg, k), t);
            && before.Rec?
            && after == if Uid(e, cfg) == Some(k)
                        then Rec(before.fields + ErrorFields(t.errors(Get(e.fields, "topology"))))
                        else before
  {
    var cfg := PoolConfig(t, true);
    LastSnoc(raw, e, cfg, k);
    if Uid(e, cfg) == Some(k) && Last(raw, cfg, k).Some? {
      Recharged(pool, t.errors(Get(Last(raw, cfg, k).value, "topology")), t.errors(Get(e.fields, "topology")));
    }
  }

  lemma Recharged(pool: Fields, first: (int, int, int), second: (int, int, int))
    ensures pool + ErrorFields(first) + ErrorFields(second) == pool + ErrorFields(second)
  {}
}
