/** What the published pools are, told from the answers themselves. */
module Contents {
  import opened Wire
  import opened Text
  import opened Json
  import opened Normalize
  import opened Mapping
  import opened Capacity
  import opened Pools
  import opened Snapshots
  import opened Values

  // ---------------------------------------------------------------- what comes in

  /** A response that is a list of pools. */
  predicate ListsPools(raw: Json) { raw.List? && IsAnswer(raw, "guid") }

  lemma PublishesIff(input: Input, t: Tables)
    ensures Publishes(input, t) <==>
              && input.GetPool? && input.datasets.Answer? && input.pools.Answer? && input.boot.Answer?
              && ListsPools(input.pools.json)
  {
    if input.GetPool? && input.pools.Answer? {
      UsableIff(input.pools.json, PoolConfig(t, true));
    }
  }

  /** A refresh brings in datasets: it is given some, and no `get_pool` that ends without publishing. */
  predicate GivesDatasets(input: Input) {
    && input.datasets.Answer? && IsAnswer(input.datasets.json, "id")
    && (input.GetDataset? || (input.pools.Answer? && input.boot.Answer? && ListsPools(input.pools.json)))
  }

  lemma BringsIff(input: Input, t: Tables)
    ensures BringsDatasets(input, t) <==> GivesDatasets(input)
  {
    PublishesIff(input, t);
    if input.datasets.Answer? {
      UsableIff(input.datasets.json, DatasetConfig(t));
    }
  }

  /** A refresh that brings in datasets leaves exactly those of its answer; any other leaves the map alone. */
  lemma DatasetsAre(s: Store, input: Input, t: Tables, k: Key)
    ensures if GivesDatasets(input)
            then k in After(s, input, t).dataset <==> HasEntry(input.datasets.json, "id", k)
            else After(s, input, t).dataset == s.dataset
  {
    DatasetOutcome(s, input, t);
    BringsIff(input, t);
    if GivesDatasets(input) {
      UidsAreEntries(input.datasets.json, DatasetConfig(t), k);
    }
  }

  /** And the mapped fields of each are what the last entry with its id gives. */
  lemma DatasetField(s: Store, input: Input, t: Tables, n: nat, k: Key, i: nat)
    requires GivesDatasets(input) && input.datasets.json.List? && n < |input.datasets.json.items|
    requires HasUid(input.datasets.json.items[n], "id", k) && Gives(t.datasetVals, i)
    requires forall m :: n < m < |input.datasets.json.items| ==> !HasUid(input.datasets.json.items[m], "id", k)
    ensures var (dataset, spec) := (After(s, input, t).dataset, t.datasetVals[i]);
            && k in dataset && dataset[k].Rec? && spec.name in dataset[k].fields
            && dataset[k].fields[spec.name] == FieldValue(input.datasets.json.items[n].fields, spec)
  {
    BringsIff(input, t);
    PublishedField(s.dataset, input.datasets.json.items, n, DatasetConfig(t), k, i);
  }

  // ---------------------------------------------------------------- which pools there are

  /** The uid a boot pool's state is entered under: its guid or else its name or else "boot-pool". */
  function BootKey(boot: Json): Option<Key> {
    if !boot.Obj? || boot.fields == map[] then None
    else
      var guid := if "guid" in boot.fields then boot.fields["guid"]
                  else if "name" in boot.fields then boot.fields["name"] else Str("boot-pool");
      if guid.Null? then None else KeyOf(guid)
  }

  lemma BootGuidIs(boot: Json, t: Tables)
    ensures BootGuid(boot, t) == BootKey(boot)
  {
    if boot.Obj? && boot.fields != map[] {
      assert "guid" in NamedBoot(boot).fields;
    }
  }

  /** A pool of this answer has the guid `k`. */
  predicate Listed(items: seq<Json>, k: Key) {
    exists n :: 0 <= n < |items| && HasUid(items[n], "guid", k)
  }

  lemma SeenIsListed(items: seq<Json>, t: Tables, k: Key)
    ensures k in Seen(items, PoolConfig(t, true)) <==> Listed(items, k)
  {
    SeenIsPresent(items, PoolConfig(t, true), k);
    forall n | 0 <= n < |items|
      ensures Uid(items[n], PoolConfig(t, true)) == Some(k) <==> HasUid(items[n], "guid", k)
    {
      UidIs(items[n], PoolConfig(t, true), k);
    }
  }

  lemma QueriedKeys(pool: Rows, raw: Json, t: Tables, k: Key)
    requires !Malformed(raw, t)
    ensures k in Queried(pool, raw, t) <==> Listed(raw.items, k)
  {
    UsableAgrees(pool, raw, PoolConfig(t, true));
    SeenIsListed(raw.items, t, k);
  }

  lemma WithBootKeys(s: Store, pools: Rows, boot: Json, t: Tables, k: Key)
    requires StoreOk(s)
    ensures k in WithBoot(s.pool, s.bootUid, pools, boot, t) <==>
              k in pools || BootKey(boot) == Some(k) || (BootKey(boot).None? && s.bootUid == Some(k))
  {
    BootGuidIs(boot, t);
    if BootGuid(boot, t).Some? {
      var (named, cfg) := (NamedBoot(boot), PoolConfig(t, false));
      assert Written([named], cfg) == {BootGuid(boot, t).value};
      assert Parsed(pools, named, cfg).Keys == pools.Keys + Written([named], cfg);
    }
  }

  /** After a `get_pool` that publishes there are exactly the pools of its `pool.query`, and the boot pool:
      the one of its answer or, if that has none, the one remembered. */
  lemma PoolOutcome(s: Store, input: Input, t: Tables, k: Key)
    requires StoreOk(s) && Publishes(input, t)
    ensures var s' := After(s, input, t);
            && (k in s'.pool <==> Listed(input.pools.json.items, k) || s'.bootUid == Some(k))
            && s'.bootUid == if BootKey(input.boot.json).Some? then BootKey(input.boot.json) else s.bootUid
  {
    BootGuidIs(input.boot.json, t);
    QueriedKeys(s.pool, input.pools.json, t, k);
    WithBootKeys(s, Queried(s.pool, input.pools.json, t), input.boot.json, t, k);
  }

  // ---------------------------------------------------------------- what is in them

  const FIGURE_NAMES: set<string> := {"available", "total", "usage", "size", "allocated", "free"}
  const ERROR_NAMES: set<string> := {"read_errors", "write_errors", "checksum_errors", "errors"}

  /** `items[n]` is the last pool of the answer with the guid `k`. */
  predicate LastListed(items: seq<Json>, n: nat, k: Key) {
    n < |items| && HasUid(items[n], "guid", k) && forall m :: n < m < |items| ==> !HasUid(items[m], "guid", k)
  }

  /** The error counts of a record, and their sum. */
  predicate HasErrors(pool: Fields, counts: (int, int, int)) {
    && Get(pool, "read_errors") == Int(counts.0) && Get(pool, "write_errors") == Int(counts.1)
    && Get(pool, "checksum_errors") == Int(counts.2) && Get(pool, "errors") == Int(counts.0 + counts.1 + counts.2)
  }

  lemma ErrorsAreWritten(pool: Fields, counts: (int, int, int), name: string)
    ensures HasErrors(pool + ErrorFields(counts), counts)
    ensures name !in ERROR_NAMES ==> name !in ErrorFields(counts)
  {}

  /** Finishing a record leaves everything but the figures and the fragmentation alone. */
  lemma FinishedKeeps(pool: Fields, root: Option<Fields>, name: string)
    requires name !in FIGURE_NAMES && name != "fragmentation"
    ensures Get(Finished(pool, root), name) == Get(pool, name) && (name in Finished(pool, root) <==> name in pool)
  {
    CapacityFrame(pool, root, name);
  }

  lemma FinishedKeepsErrors(pool: Fields, root: Option<Fields>, counts: (int, int, int))
    requires HasErrors(pool, counts)
    ensures HasErrors(Finished(pool, root), counts)
  {
    FinishedKeeps(pool, root, "read_errors");
    FinishedKeeps(pool, root, "write_errors");
    FinishedKeeps(pool, root, "checksum_errors");
    FinishedKeeps(pool, root, "errors");
  }

  /** The fields an entry gives the record of `k`. */
  function Taken(pool: Rows, items: seq<Json>, t: Tables, k: Key): Fields {
    Base(Parsed(pool, List(items), PoolConfig(t, true)), k)
  }

  function CountsOf(e: Json, t: Tables): (int, int, int)
    requires e.Obj?
  {
    t.errors(Get(e.fields, "topology"))
  }

  lemma QueriedRecord(pool: Rows, items: seq<Json>, t: Tables, n: nat, k: Key)
    requires LastListed(items, n, k)
    ensures k in Queried(pool, List(items), t)
    ensures Queried(pool, List(items), t)[k] == Rec(Taken(pool, items, t, k) + ErrorFields(CountsOf(items[n], t)))
  {
    var cfg := PoolConfig(t, true);
    MakesIsLast(items, n, cfg, k);
    WrittenIffLast(items, cfg, k);
    WrittenIsSeen(items, cfg);
    assert k in Parsed(pool, List(items), cfg) && Parsed(pool, List(items), cfg)[k].Rec?;
  }

  lemma TakenField(pool: Rows, items: seq<Json>, t: Tables, n: nat, k: Key, i: nat)
    requires LastListed(items, n, k) && Gives(t.poolVals, i)
    ensures t.poolVals[i].name in Taken(pool, items, t, k)
    ensures Taken(pool, items, t, k)[t.poolVals[i].name] == FieldValue(items[n].fields, t.poolVals[i])
  {
    PublishedField(pool, items, n, PoolConfig(t, true), k, i);
  }

  /** A pool that is not the boot pool is published as the answer gives it, finished. */
  lemma PublishedRecord(s: Store, input: Input, t: Tables, n: nat, k: Key) returns (root: Option<Fields>)
    requires StoreOk(s) && Publishes(input, t) && LastListed(input.pools.json.items, n, k)
    requires After(s, input, t).bootUid != Some(k)
    ensures k in After(s, input, t).pool
    ensures var items := input.pools.json.items;
            After(s, input, t).pool[k]
            == Rec(Finished(Taken(s.pool, items, t, k) + ErrorFields(CountsOf(items[n], t)), root))
            && root == RootOf(input.index, After(s, input, t).dataset,
                              Taken(s.pool, items, t, k) + ErrorFields(CountsOf(items[n], t)))
  {
    var pools := Queried(s.pool, input.pools.json, t);
    QueriedRecord(s.pool, input.pools.json.items, t, n, k);
    OtherIsKept(s, pools, input.boot.json, t, k);
    root := RootOf(input.index, Fetched(s.dataset, input.datasets.json, t), pools[k].fields);
  }

  lemma OtherIsKept(s: Store, pools: Rows, boot: Json, t: Tables, k: Key)
    requires k in pools && BootUid(s.bootUid, boot, t) != Some(k)
    ensures var all := WithBoot(s.pool, s.bootUid, pools, boot, t); k in all && all[k] == pools[k]
  {
    if BootGuid(boot, t).Some? {
      var (named, cfg) := (NamedBoot(boot), PoolConfig(t, false));
      assert [named][..0] == [];
      assert Seen([named], cfg) == {BootGuid(boot, t).value};
      PartialSourceKeeps(pools, [named], cfg, k);
      assert Last([named], PoolConfig(t, true), k).None?;
    }
  }

  /** In a pool that was just published, other than the boot pool, every mapped field that is not computed
      is what the last entry with its guid gives. */
  lemma PoolField(s: Store, input: Input, t: Tables, n: nat, k: Key, i: nat)
    requires StoreOk(s) && Publishes(input, t) && LastListed(input.pools.json.items, n, k)
    requires After(s, input, t).bootUid != Some(k) && Gives(t.poolVals, i)
    requires t.poolVals[i].name !in FIGURE_NAMES && t.poolVals[i].name !in ERROR_NAMES
    requires t.poolVals[i].name != "fragmentation"
    ensures var pool := After(s, input, t).pool;
            && k in pool && pool[k].Rec? && t.poolVals[i].name in pool[k].fields
            && pool[k].fields[t.poolVals[i].name] == FieldValue(input.pools.json.items[n].fields, t.poolVals[i])
  {
    var (items, name) := (input.pools.json.items, t.poolVals[i].name);
    var root := PublishedRecord(s, input, t, n, k);
    TakenField(s.pool, items, t, n, k, i);
    ErrorsAreWritten(Taken(s.pool, items, t, k), CountsOf(items[n], t), name);
    FinishedKeeps(Taken(s.pool, items, t, k) + ErrorFields(CountsOf(items[n], t)), root, name);
  }

  /** Its error counts are those of that entry's topology, and "errors" is their sum. */
  lemma PoolErrors(s: Store, input: Input, t: Tables, n: nat, k: Key)
    requires StoreOk(s) && Publishes(input, t) && LastListed(input.pools.json.items, n, k)
    requires After(s, input, t).bootUid != Some(k)
    ensures var pool := After(s, input, t).pool;
            k in pool && pool[k].Rec? && HasErrors(pool[k].fields, CountsOf(input.pools.json.items[n], t))
  {
    var items := input.pools.json.items;
    var root := PublishedRecord(s, input, t, n, k);
    ErrorsAreWritten(Taken(s.pool, items, t, k), CountsOf(items[n], t), "");
    FinishedKeepsErrors(Taken(s.pool, items, t, k) + ErrorFields(CountsOf(items[n], t)), root, CountsOf(items[n], t));
  }

  // ---------------------------------------------------------------- the boot pool

  /** The fields a boot pool's state is taken from: its guid and id are its name where it has none. */
  function Entered(boot: Fields): Fields {
    var name := if "name" in boot then boot["name"] else Str("boot-pool");
    var guided := if "guid" in boot then boot else boot["guid" := name];
    if "id" in boot then guided else guided["id" := name]
  }

  lemma EnteredIs(boot: Fields)
    requires boot != map[]
    ensures NamedBoot(Obj(boot)) == Obj(Entered(boot)) && Get(Entered(boot), "topology") == Get(boot, "topology")
  {
    assert Entered(boot) == NamedBoot(Obj(boot)).fields;
  }

  /** The fields it gives the record of `k`. */
  function BootTaken(pools: Rows, boot: Fields, t: Tables, k: Key): Fields {
    Base(Parsed(pools, List([Obj(Entered(boot))]), PoolConfig(t, false)), k)
  }

  lemma BootMakes(boot: Fields, cfg: Config, k: Key)
    requires boot != map[] && BootKey(Obj(boot)) == Some(k)
    requires cfg.key == "guid" && cfg.only == [] && cfg.skip == [] && cfg.secondary.None?
    ensures Makes([Obj(Entered(boot))], 0, cfg, k)
  {
    assert HasUid(Obj(Entered(boot)), "guid", k);
  }

  lemma BootEntered(pools: Rows, boot: Fields, t: Tables, k: Key)
    requires boot != map[] && BootKey(Obj(boot)) == Some(k)
    ensures var named := Obj(Entered(boot));
            var all := WithErrors(Parsed(pools, named, PoolConfig(t, false)), [named], t);
            k in all && all[k] == Rec(BootTaken(pools, boot, t, k) + ErrorFields(CountsOf(named, t)))
  {
    var (named, cfg) := (Obj(Entered(boot)), PoolConfig(t, false));
    BootMakes(boot, cfg, k);
    BootMakes(boot, PoolConfig(t, true), k);
    MakesIsLast([named], 0, PoolConfig(t, true), k);
    MakesIsLast([named], 0, cfg, k);
    WrittenIffLast([named], cfg, k);
    WrittenIsSeen([named], cfg);
    assert Parsed(pools, named, cfg) == Parsed(pools, List([named]), cfg);
  }

  lemma BootTakenField(pools: Rows, boot: Fields, t: Tables, k: Key, i: nat)
    requires boot != map[] && BootKey(Obj(boot)) == Some(k) && Gives(t.poolVals, i)
    ensures t.poolVals[i].name in BootTaken(pools, boot, t, k)
    ensures BootTaken(pools, boot, t, k)[t.poolVals[i].name] == FieldValue(Entered(boot), t.poolVals[i])
  {
    BootMakes(boot, PoolConfig(t, false), k);
    PublishedField(pools, [Obj(Entered(boot))], 0, PoolConfig(t, false), k, i);
  }

  lemma BootRecord(s: Store, input: Input, t: Tables, k: Key) returns (raw: Fields, root: Option<Fields>)
    requires StoreOk(s) && Publishes(input, t) && BootKey(input.boot.json) == Some(k)
    ensures k in After(s, input, t).pool
    ensures raw == BootTaken(Queried(s.pool, input.pools.json, t), input.boot.json.fields, t, k)
    ensures After(s, input, t).pool[k] == Rec(Finished(raw + ErrorFields(CountsOf(input.boot.json, t)), root))
  {
    var (boot, pools) := (input.boot.json, Queried(s.pool, input.pools.json, t));
    BootGuidIs(boot, t);
    EnteredIs(boot.fields);
    BootEntered(pools, boot.fields, t, k);
    raw := BootTaken(pools, boot.fields, t, k);
    root := RootOf(input.index, Fetched(s.dataset, input.datasets.json, t), raw + ErrorFields(CountsOf(boot, t)));
  }

  /** The boot pool, when `boot.get_state` gives one: its mapped fields that are not computed are what the
      answer gives, and its error counts are those of its topology. */
  lemma BootField(s: Store, input: Input, t: Tables, k: Key, i: nat)
    requires StoreOk(s) && Publishes(input, t) && BootKey(input.boot.json) == Some(k) && Gives(t.poolVals, i)
    requires t.poolVals[i].name !in FIGURE_NAMES && t.poolVals[i].name !in ERROR_NAMES
    requires t.poolVals[i].name != "fragmentation"
    ensures var pool := After(s, input, t).pool;
            && k in pool && pool[k].Rec? && t.poolVals[i].name in pool[k].fields
            && pool[k].fields[t.poolVals[i].name] == FieldValue(Entered(input.boot.json.fields), t.poolVals[i])
            && HasErrors(pool[k].fields, CountsOf(input.boot.json, t))
  {
    var counts := CountsOf(input.boot.json, t);
    var raw, root := BootRecord(s, input, t, k);
    BootTakenField(Queried(s.pool, input.pools.json, t), input.boot.json.fields, t, k, i);
    ErrorsAreWritten(raw, counts, t.poolVals[i].name);
    FinishedKeeps(raw + ErrorFields(counts), root, t.poolVals[i].name);
    FinishedKeepsErrors(raw + ErrorFields(counts), root, counts);
  }

  /** When it gives none, the remembered boot pool keeps every field but its figures and fragmentation. */
  lemma BootIsCarried(s: Store, input: Input, t: Tables, k: Key, name: string)
    requires StoreOk(s) && Publishes(input, t) && BootKey(input.boot.json).None? && s.bootUid == Some(k)
    requires name !in FIGURE_NAMES && name != "fragmentation"
    ensures var pool := After(s, input, t).pool;
            && k in pool && k in s.pool && pool[k].Rec? == s.pool[k].Rec?
            && (pool[k].Rec? ==> Get(pool[k].fields, name) == Get(s.pool[k].fields, name))
  {
    BootGuidIs(input.boot.json, t);
    if s.pool[k].Rec? {
      var root := RootOf(input.index, Fetched(s.dataset, input.datasets.json, t), s.pool[k].fields);
      FinishedKeeps(s.pool[k].fields, root, name);
    }
  }

  // ---------------------------------------------------------------- numbers

  /** A count read from a text with any blanks, a whole or a broken number; anything else reads as none. */
  lemma NumbersRead(before: string, n: nat, after: string, j: Json)
    requires Blank(before) && Blank(after)
    ensures ToOptionalInt(Str(before + Print(n) + after)) == Some(n)
    ensures ToOptionalInt(Str(before + ("-" + Print(n)) + after)) == Some(0 - n)
    ensures j.Int? ==> ToOptionalInt(j) == Some(j.n)
    ensures j.Float? ==> ToOptionalInt(j).Some? && (if j.r >= 0.0 then 0.0 <= j.r - ToOptionalInt(j).value as real < 1.0
                                                    else 0.0 <= ToOptionalInt(j).value as real - j.r < 1.0)
    ensures j.Null? || j.Bool? || j.NaN? || j.Infinite? || j.List? || j.Obj? ==> ToOptionalInt(j).None?
  {
    ParseIntPrint(before, n, after);
    var signed := "-" + Print(n);
    assert signed[|signed| - 1] == Print(n)[|Print(n)| - 1] && signed[1..] == Print(n);
    StripPadded(before, signed, after);
    DigitsPrint(n);
  }

  /** A pool's fragmentation is the number its raw record gives, and 0 if that is none. */
  lemma PoolFragmentation(s: Store, input: Input, t: Tables, n: nat, k: Key, i: nat)
    requires StoreOk(s) && Publishes(input, t) && LastListed(input.pools.json.items, n, k)
    requires After(s, input, t).bootUid != Some(k) && Gives(t.poolVals, i) && t.poolVals[i].name == "fragmentation"
    ensures var (pool, raw) := (After(s, input, t).pool, FieldValue(input.pools.json.items[n].fields, t.poolVals[i]));
            && k in pool && pool[k].Rec?
            && Get(pool[k].fields, "fragmentation")
               == Int(if ToOptionalInt(raw).Some? then ToOptionalInt(raw).value else 0)
  {
    var items := input.pools.json.items;
    var root := PublishedRecord(s, input, t, n, k);
    TakenField(s.pool, items, t, n, k, i);
    FragmentationIsNumber(Taken(s.pool, items, t, k), CountsOf(items[n], t), root);
  }

  lemma FragmentationIsNumber(pool: Fields, counts: (int, int, int), root: Option<Fields>)
    ensures Get(Finished(pool + ErrorFields(counts), root), "fragmentation") == Int(ToInt(Get(pool, "fragmentation")))
  {
    ErrorsAreWritten(pool, counts, "fragmentation");
  }

  // ---------------------------------------------------------------- figures

  /** A dataset is mounted at the pool's path. */
  predicate IsMountedAt(dataset: Cell, pool: Fields) {
    && dataset.Rec? && Get(pool, "path").Str? && Get(dataset.fields, "mountpoint") == Get(pool, "path")
    && Get(pool, "path") != Str("") && Get(pool, "path") != Str("unknown")
  }

  /** The pool's figures are those of the dataset, or unknown if it does not give both. */
  predicate HasFiguresOf(pool: Fields, dataset: Fields) {
    var (a, u) := (ToOptionalInt(Get(dataset, "available")), ToOptionalInt(Get(dataset, "used")));
    if dataset == map[] then true
    else if a.Some? && u.Some? && a.value >= 0 && u.value >= 0 && a.value + u.value > 0
    then && Get(pool, "available") == Int(a.value) && Get(pool, "total") == Int(a.value + u.value)
         && Get(pool, "size") == Int(a.value + u.value) && Get(pool, "allocated") == Int(u.value)
    else Unknown(pool)
  }

  lemma RootIsMounted(index: Index, datasets: Rows, pool: Fields, d: Key)
    requires IsIndex(index, datasets) && d in datasets && IsMountedAt(datasets[d], pool)
    ensures exists d' :: d' in datasets && IsMountedAt(datasets[d'], pool)
                         && RootOf(index, datasets, pool) == Some(datasets[d'].fields)
  {
    var path := Get(pool, "path").s;
    assert MountedAt(datasets[d], path);
    var d' :| d' in datasets && MountedAt(datasets[d'], path) && datasets[d'].fields == index[path];
    assert IsMountedAt(datasets[d'], pool);
  }

  lemma RootIsNamed(index: Index, datasets: Rows, pool: Fields, d: Key)
    requires IsIndex(index, datasets) && AllRecords(datasets)
    requires forall d' :: d' in datasets ==> !IsMountedAt(datasets[d'], pool)
    requires KeyOf(Get(pool, "name")) == Some(d) && d in datasets
    ensures RootOf(index, datasets, pool) == Some(datasets[d].fields)
  {
    forall d' | d' in datasets && Get(pool, "path").Str?
      ensures !MountedAt(datasets[d'], Get(pool, "path").s)
    {
      assert !IsMountedAt(datasets[d'], pool);
    }
  }

  lemma SettledHasFigures(pool: Fields, dataset: Fields)
    requires Finished(pool, Some(dataset)) == pool
    ensures HasFiguresOf(pool, dataset)
  {
    if dataset != map[] {
      RootFigures(pool, dataset);
      assert Unknown(ApplyCapacity(pool, Some(dataset))) ==> Unknown(pool);
      assert Coherent(ApplyCapacity(pool, Some(dataset))) ==> Coherent(pool);
    }
  }

  predicate AnyMountedAt(datasets: Rows, pool: Fields) {
    exists d :: d in datasets && IsMountedAt(datasets[d], pool)
  }

  /** The pool has the figures of a dataset that is mounted at its path, if there is one, and otherwise
      those of the dataset that is called like it. */
  ghost predicate FollowsRoot(pool: Fields, datasets: Rows) {
    if AnyMountedAt(datasets, pool)
    then exists d :: d in datasets && IsMountedAt(datasets[d], pool) && HasFiguresOf(pool, datasets[d].fields)
    else forall d :: d in datasets && KeyOf(Get(pool, "name")) == Some(d) ==>
           datasets[d].Rec? && HasFiguresOf(pool, datasets[d].fields)
  }

  lemma SettledFollows(pool: Fields, index: Index, datasets: Rows)
    requires IsIndex(index, datasets) && AllRecords(datasets) && Settled(Rec(pool), index, datasets)
    ensures FollowsRoot(pool, datasets)
  {
    if AnyMountedAt(datasets, pool) {
      var d :| d in datasets && IsMountedAt(datasets[d], pool);
      RootIsMounted(index, datasets, pool, d);
      var d' :| d' in datasets && IsMountedAt(datasets[d'], pool)
                && RootOf(index, datasets, pool) == Some(datasets[d'].fields);
      SettledHasFigures(pool, datasets[d'].fields);
    } else {
      forall d | d in datasets && KeyOf(Get(pool, "name")) == Some(d)
        ensures datasets[d].Rec? && HasFiguresOf(pool, datasets[d].fields)
      {
        RootIsNamed(index, datasets, pool, d);
        SettledHasFigures(pool, datasets[d].fields);
      }
    }
  }

  /** In every run, whatever is refreshed and however calls fail: each published pool follows its root
      dataset, in the dataset map that was published with it. */
  lemma PoolFigures(inputs: seq<Input>, t: Tables, i: int, k: Key)
    requires PossibleRun(inputs, t) && LastDecides(PoolCapacity, inputs, i, t) && k in Run(inputs, t).pool
    ensures Run(inputs, t).pool[k].Rec? && FollowsRoot(Run(inputs, t).pool[k].fields, Run(inputs[..i + 1], t).dataset)
  {
    PoolsAgreeWithTheirDatasets(inputs, t, i);
    RunOk(inputs[..i + 1], t);
    AgreeFollows(Run(inputs, t).pool, Run(inputs[..i + 1], t).dataset, k);
  }

  lemma AgreeFollows(pool: Rows, datasets: Rows, k: Key)
    requires Agree(pool, datasets) && AllRecords(datasets) && k in pool
    ensures pool[k].Rec? && FollowsRoot(pool[k].fields, datasets)
  {
    var index :| IsIndex(index, datasets) && forall k :: k in pool ==> Settled(pool[k], index, datasets);
    SettledFollows(pool[k].fields, index, datasets);
  }

  /** A pool has a root dataset: one that is mounted at its path, or else one that is called like it. */
  predicate HasRootIn(pool: Fields, datasets: Rows) {
    AnyMountedAt(datasets, pool) || (KeyOf(Get(pool, "name")).Some? && KeyOf(Get(pool, "name")).value in datasets)
  }

  lemma RootIffHas(index: Index, datasets: Rows, pool: Fields)
    requires IsIndex(index, datasets)
    ensures RootOf(index, datasets, pool).Some? <==> HasRootIn(pool, datasets)
  {
    if Get(pool, "path").Str? {
      var path := Get(pool, "path").s;
      if path in index {
        var d :| d in datasets && MountedAt(datasets[d], path) && datasets[d].fields == index[path];
        assert IsMountedAt(datasets[d], pool);
      }
      if AnyMountedAt(datasets, pool) {
        var d :| d in datasets && IsMountedAt(datasets[d], pool);
        assert MountedAt(datasets[d], path);
      }
    }
  }

  /** Its figures do not decide whether it has one. */
  lemma FinishedHasRoot(pool: Fields, root: Option<Fields>, datasets: Rows)
    ensures HasRootIn(Finished(pool, root), datasets) <==> HasRootIn(pool, datasets)
  {
    FinishedKeeps(pool, root, "path");
    FinishedKeeps(pool, root, "name");
    forall d | d in datasets
      ensures IsMountedAt(datasets[d], Finished(pool, root)) <==> IsMountedAt(datasets[d], pool)
    {}
  }

  /** The pool's figures are its own: what it has free and its size or, where that is no size, what is free
      together with what is allocated. They are unknown if these are missing or contradict each other. */
  predicate HasFigures(pool: Fields, free: Option<int>, size: Option<int>, taken: Option<int>) {
    var sized := size.Some? && size.value > 0;
    if free.Some? && free.value >= 0 && (taken.Some? ==> taken.value >= 0)
       && (if sized then free.value <= size.value && (taken.Some? ==> taken.value <= size.value)
           else taken.Some? && free.value + taken.value > 0)
    then && Coherent(pool) && pool["available"].n == free.value
         && pool["total"].n == if sized then size.value else free.value + taken.value
    else Unknown(pool)
  }

  /** The number that an entry gives for the spec `i`. */
  function NumberOf(e: Json, t: Tables, i: nat): Option<int>
    requires e.Obj? && i < |t.poolVals|
  {
    ToOptionalInt(FieldValue(e.fields, t.poolVals[i]))
  }

  predicate ReadsFigures(t: Tables, free: nat, size: nat, taken: nat) {
    && Gives(t.poolVals, free) && t.poolVals[free].name == "free"
    && Gives(t.poolVals, size) && t.poolVals[size].name == "size"
    && Gives(t.poolVals, taken) && t.poolVals[taken].name == "allocated"
  }

  /** A pool that was just published, other than the boot pool, and that no dataset is the root of, has the
      figures its own raw entry gives. */
  lemma PoolOwnFigures(s: Store, input: Input, t: Tables, n: nat, k: Key, free: nat, size: nat, taken: nat)
    requires StoreOk(s) && Publishes(input, t) && Possible(s, input, t) && LastListed(input.pools.json.items, n, k)
    requires After(s, input, t).bootUid != Some(k) && ReadsFigures(t, free, size, taken)
    requires var s' := After(s, input, t);
             k in s'.pool && s'.pool[k].Rec? && !HasRootIn(s'.pool[k].fields, s'.dataset)
    ensures var e := input.pools.json.items[n];
            HasFigures(After(s, input, t).pool[k].fields, NumberOf(e, t, free), NumberOf(e, t, size),
                       NumberOf(e, t, taken))
  {
    var (items, s') := (input.pools.json.items, After(s, input, t));
    var root := PublishedRecord(s, input, t, n, k);
    TakenFigures(s.pool, items, t, n, k, free, size, taken);
    Unrooted(input.index, s'.dataset, Taken(s.pool, items, t, k) + ErrorFields(CountsOf(items[n], t)), root);
  }

  lemma TakenFigures(pool: Rows, items: seq<Json>, t: Tables, n: nat, k: Key, free: nat, size: nat, taken: nat)
    requires LastListed(items, n, k) && ReadsFigures(t, free, size, taken)
    ensures var p := Taken(pool, items, t, k) + ErrorFields(CountsOf(items[n], t));
            && ToOptionalInt(Get(p, "free")) == NumberOf(items[n], t, free)
            && ToOptionalInt(Get(p, "size")) == NumberOf(items[n], t, size)
            && ToOptionalInt(Get(p, "allocated")) == NumberOf(items[n], t, taken)
  {
    var counts := CountsOf(items[n], t);
    TakenField(pool, items, t, n, k, free);
    TakenField(pool, items, t, n, k, size);
    TakenField(pool, items, t, n, k, taken);
    ErrorsAreWritten(Taken(pool, items, t, k), counts, "free");
    ErrorsAreWritten(Taken(pool, items, t, k), counts, "size");
    ErrorsAreWritten(Taken(pool, items, t, k), counts, "allocated");
  }

  lemma Unrooted(index: Index, datasets: Rows, pool: Fields, root: Option<Fields>)
    requires IsIndex(index, datasets) && root == RootOf(index, datasets, pool)
    requires !HasRootIn(Finished(pool, root), datasets)
    ensures HasFigures(Finished(pool, root), ToOptionalInt(Get(pool, "free")), ToOptionalInt(Get(pool, "size")),
                       ToOptionalInt(Get(pool, "allocated")))
  {
    RootIffHas(index, datasets, pool);
    FinishedHasRoot(pool, root, datasets);
    FinishedOwn(pool, root);
  }

  lemma FinishedOwn(pool: Fields, root: Option<Fields>)
    requires root.None?
    ensures HasFigures(Finished(pool, root), ToOptionalInt(Get(pool, "free")), ToOptionalInt(Get(pool, "size")),
                       ToOptionalInt(Get(pool, "allocated")))
  {
    OwnFigures(pool, root);
  }

  // ---------------------------------------------------------------- whole runs

  /** Until another `get_pool` publishes, the pool map is the last one published. */
  lemma {:induction false} PoolIsLastPublished(inputs: seq<Input>, i: nat, t: Tables)
    requires i <= |inputs| && forall j :: i <= j < |inputs| ==> !Publishes(inputs[j], t)
    ensures Run(inputs, t).pool == Run(inputs[..i], t).pool && Run(inputs, t).bootUid == Run(inputs[..i], t).bootUid
  {
    if i == |inputs| {
      assert inputs[..i] == inputs;
    } else {
      var front := inputs[..|inputs| - 1];
      assert front[..i] == inputs[..i];
      PoolIsLastPublished(front, i, t);
      UnpublishedKeeps(Run(front, t), inputs[|inputs| - 1], t);
    }
  }

  /** In every run: the pools are those of the last `get_pool` that published, and the boot pool of the
      last one that had any. */
  lemma PoolsAreTheLastAnswer(inputs: seq<Input>, t: Tables, i: nat, k: Key)
    requires i < |inputs| && Publishes(inputs[i], t) && forall j :: i < j < |inputs| ==> !Publishes(inputs[j], t)
    ensures k in Run(inputs, t).pool <==> Listed(inputs[i].pools.json.items, k) || Run(inputs, t).bootUid == Some(k)
    ensures Run(inputs, t).pool == After(Run(inputs[..i], t), inputs[i], t).pool
  {
    assert inputs[..i + 1][..i] == inputs[..i];
    PoolIsLastPublished(inputs, i + 1, t);
    RunOk(inputs[..i], t);
    PoolOutcome(Run(inputs[..i], t), inputs[i], t, k);
  }

  /** Refresh `i` is the last to publish a boot pool of its own answer. */
  predicate LastBoot(inputs: seq<Input>, i: int, t: Tables) {
    && 0 <= i < |inputs| && BringsBoot(inputs[i], t)
    && forall j :: i < j < |inputs| ==> !BringsBoot(inputs[j], t)
  }

  predicate BringsBoot(input: Input, t: Tables) {
    Publishes(input, t) && BootKey(input.boot.json).Some?
  }

  /** The remembered boot pool is that of the last published answer that had one. */
  lemma {:induction false} BootPoolIsTheLast(inputs: seq<Input>, t: Tables, k: Key)
    ensures Run(inputs, t).bootUid == Some(k) <==>
              exists i :: LastBoot(inputs, i, t) && BootKey(inputs[i].boot.json) == Some(k)
  {
    if inputs != [] {
      var (n, front) := (|inputs| - 1, inputs[..|inputs| - 1]);
      BootPoolIsTheLast(front, t, k);
      BootStep(Run(front, t), inputs[n], t);
      if BringsBoot(inputs[n], t) {
        assert LastBoot(inputs, n, t);
      } else {
        LastBootSnoc(inputs, t);
      }
    }
  }

  lemma BootStep(s: Store, input: Input, t: Tables)
    ensures After(s, input, t).bootUid == if BringsBoot(input, t) then BootKey(input.boot.json) else s.bootUid
  {
    if Publishes(input, t) {
      BootGuidIs(input.boot.json, t);
    } else {
      UnpublishedKeeps(s, input, t);
    }
  }

  lemma LastBootSnoc(inputs: seq<Input>, t: Tables)
    requires inputs != [] && !BringsBoot(inputs[|inputs| - 1], t)
    ensures forall i :: LastBoot(inputs, i, t) <==> LastBoot(inputs[..|inputs| - 1], i, t)
  {
    forall i
      ensures LastBoot(inputs, i, t) <==> LastBoot(inputs[..|inputs| - 1], i, t)
    {
      if LastBoot(inputs[..|inputs| - 1], i, t) {
        forall j | i < j < |inputs|
          ensures !BringsBoot(inputs[j], t)
        {
          assert j < |inputs| - 1 ==> inputs[j] == inputs[..|inputs| - 1][j];
        }
      }
    }
  }
}
