/** What the cached "pool" and "dataset" maps and their staleness mean, over whole runs of refreshes. */
module Snapshots {
  import opened Wire
  import opened Json
  import opened Normalize
  import opened Mapping
  import opened Capacity
  import opened Pools

  /** The store after a run of refreshes. */
  function Run(inputs: seq<Input>, t: Tables): Store {
    if inputs == [] then EMPTY else After(Run(inputs[..|inputs| - 1], t), inputs[|inputs| - 1], t)
  }

  /** Every mountpoint lookup of the run is one its refresh can have built. */
  ghost predicate PossibleRun(inputs: seq<Input>, t: Tables) {
    forall i :: 0 <= i < |inputs| ==> Possible(Run(inputs[..i], t), inputs[i], t)
  }

  /** No call to the server raises. */
  predicate Silent(input: Input) {
    input.datasets.Answer? && (input.GetPool? ==> input.pools.Answer? && input.boot.Answer?)
  }

  lemma {:induction false} RunOk(inputs: seq<Input>, t: Tables)
    ensures StoreOk(Run(inputs, t))
  {
    if inputs != [] {
      RunOk(inputs[..|inputs| - 1], t);
      AfterOk(Run(inputs[..|inputs| - 1], t), inputs[|inputs| - 1], t);
    }
  }

  // ---------------------------------------------------------------- one refresh

  /** Whether a refresh brings in a new dataset map. */
  predicate BringsDatasets(input: Input, t: Tables) {
    && input.datasets.Answer? && Usable(input.datasets.json, DatasetConfig(t))
    && (input.GetDataset? || Publishes(input, t))
  }

  /** Whether some pool of a publishing refresh takes its capacity from the given datasets. */
  predicate UsesDatasets(s: Store, input: Input, t: Tables)
    requires Publishes(input, t)
  {
    AnyRoot(WithBoot(s.pool, s.bootUid, Queried(s.pool, input.pools.json, t), input.boot.json, t),
            input.index, Fetched(s.dataset, input.datasets.json, t))
  }

  /** Whether a `get_pool` in which no call raises leaves "pool" outdated. */
  predicate PoolFellBack(s: Store, input: Input, t: Tables)
    requires Silent(input) && input.GetPool?
  {
    || Malformed(input.pools.json, t)
    || (BootGuid(input.boot.json, t).None? && s.bootUid.Some?)
    || (!Usable(input.datasets.json, DatasetConfig(t)) && UsesDatasets(s, input, t))
  }

  /** Whether a refresh gets as far as to raise or lower a flag. */
  predicate Decides(flag: Flag, input: Input, t: Tables) {
    match flag
    case DatasetQuery => input.datasets.Answer?
    case NotPublished => input.datasets.Answer? && (input.GetPool? ==> input.pools.Answer?)
    case PoolQuery => input.GetPool? && input.datasets.Answer? && input.pools.Answer?
    case BootPool => Publishes(input, t)
    case PoolCapacity => Publishes(input, t)
  }

  /** What such a refresh then decides. */
  predicate Raises(flag: Flag, s: Store, input: Input, t: Tables)
    requires Decides(flag, input, t)
  {
    match flag
    case DatasetQuery => !Usable(input.datasets.json, DatasetConfig(t))
    case NotPublished => input.GetPool? && Malformed(input.pools.json, t)
    case PoolQuery => Malformed(input.pools.json, t)
    case BootPool => BootGuid(input.boot.json, t).None? && s.bootUid.Some?
    case PoolCapacity => !Usable(input.datasets.json, DatasetConfig(t)) && UsesDatasets(s, input, t)
  }

  lemma FlagStep(flag: Flag, s: Store, input: Input, t: Tables)
    requires StoreOk(s)
    ensures flag in After(s, input, t).failing
       <==> if Decides(flag, input, t) then Raises(flag, s, input, t) else flag in s.failing
  {
    if Publishes(input, t) {
      PublishingFlags(flag, s, input, t);
    }
  }

  lemma PublishingFlags(flag: Flag, s: Store, input: Input, t: Tables)
    requires StoreOk(s) && Publishes(input, t)
    ensures flag in After(s, input, t).failing <==> Raises(flag, s, input, t)
  {
    var noted := Noted(s.failing, DatasetQuery, !Usable(input.datasets.json, DatasetConfig(t)));
    PublishedFlags(flag, s, Lowered(noted), Fetched(s.dataset, input.datasets.json, t),
                   Queried(s.pool, input.pools.json, t), input.boot.json, input.index, t);
  }

  lemma PublishedFlags(flag: Flag, s: Store, failing: set<Flag>, datasets: Rows, pools: Rows, boot: Json, index: Index,
                       t: Tables)
    requires s.bootUid.Some? ==> s.bootUid.value in s.pool
    requires BootPool in failing ==> s.bootUid.Some?
    ensures flag in Published(s.pool, s.bootUid, failing, datasets, pools, boot, index, t).failing
       <==> match flag
            case BootPool => BootGuid(boot, t).None? && s.bootUid.Some?
            case PoolCapacity =>
              DatasetQuery in failing && AnyRoot(WithBoot(s.pool, s.bootUid, pools, boot, t), index, datasets)
            case _ => flag in failing
  {}

  // ---------------------------------------------------------------- staleness, whole runs

  /** Refresh `i` is the last one to decide `flag`. */
  predicate LastDecides(flag: Flag, inputs: seq<Input>, i: int, t: Tables) {
    && 0 <= i < |inputs| && Decides(flag, inputs[i], t)
    && forall j :: i < j < |inputs| ==> !Decides(flag, inputs[j], t)
  }

  /** Over every run, wherever calls raise: a flag is up exactly if the last refresh to get as far as
      deciding it found the fault it stands for. */
  lemma {:induction false} FlagsAreExact(flag: Flag, inputs: seq<Input>, t: Tables)
    ensures flag in Run(inputs, t).failing
       <==> exists i :: LastDecides(flag, inputs, i, t) && Raises(flag, Run(inputs[..i], t), inputs[i], t)
  {
    if inputs != [] {
      var (n, front) := (|inputs| - 1, inputs[..|inputs| - 1]);
      FlagsAreExact(flag, front, t);
      RunOk(front, t);
      FlagStep(flag, Run(front, t), inputs[n], t);
      if Decides(flag, inputs[n], t) {
        assert LastDecides(flag, inputs, n, t);
      } else {
        LastDecidesSnoc(flag, inputs, t);
        forall i | 0 <= i < n
          ensures inputs[..i] == front[..i]
        {}
      }
    }
  }

  lemma LastDecidesSnoc(flag: Flag, inputs: seq<Input>, t: Tables)
    requires inputs != [] && !Decides(flag, inputs[|inputs| - 1], t)
    ensures forall i :: LastDecides(flag, inputs, i, t) <==> LastDecides(flag, inputs[..|inputs| - 1], i, t)
  {
    forall i
      ensures LastDecides(flag, inputs, i, t) <==> LastDecides(flag, inputs[..|inputs| - 1], i, t)
    {
      if LastDecides(flag, inputs[..|inputs| - 1], i, t) {
        forall j | i < j < |inputs|
          ensures !Decides(flag, inputs[j], t)
        {
          assert j < |inputs| - 1 ==> inputs[j] == inputs[..|inputs| - 1][j];
        }
      }
    }
  }

  lemma SilentStep(s: Store, input: Input, t: Tables)
    requires StoreOk(s) && Silent(input)
    ensures Stale(After(s, input, t).failing, "dataset") <==> !BringsDatasets(input, t)
    ensures Stale(After(s, input, t).failing, "pool")
       <==> if input.GetPool? then PoolFellBack(s, input, t) else Stale(s.failing, "pool")
  {}

  /** Over every run in which no call raises: "dataset" is stale exactly if the last refresh brought
      in no new map, and "pool" exactly if the last `get_pool` kept the old map, carried the boot
      pool over, or used outdated datasets. */
  lemma {:induction false} ExactStaleness(inputs: seq<Input>, t: Tables)
    requires forall input :: input in inputs ==> Silent(input)
    ensures Stale(Run(inputs, t).failing, "dataset") <==> inputs != [] && !BringsDatasets(inputs[|inputs| - 1], t)
    ensures Stale(Run(inputs, t).failing, "pool")
       <==> exists i :: LastDecides(PoolQuery, inputs, i, t) && PoolFellBack(Run(inputs[..i], t), inputs[i], t)
  {
    if inputs != [] {
      var (n, front) := (|inputs| - 1, inputs[..|inputs| - 1]);
      ExactStaleness(front, t);
      RunOk(front, t);
      assert inputs[n] in inputs;
      SilentStep(Run(front, t), inputs[n], t);
      if inputs[n].GetPool? {
        assert LastDecides(PoolQuery, inputs, n, t);
      } else {
        LastDecidesSnoc(PoolQuery, inputs, t);
        forall i | 0 <= i < n
          ensures inputs[..i] == front[..i]
        {}
      }
    }
  }

  /** A `get_pool` that brings in no new datasets leaves "dataset" unflagged exactly if its dataset
      answer was usable, and either `pool.query` raised with nothing flagged before, or
      `boot.get_state` raised after a well-formed `pool.query` had lowered the flags. */
  lemma UnflaggedFallback(s: Store, input: Input, t: Tables)
    requires input.GetPool? && input.datasets.Answer? && !BringsDatasets(input, t)
    ensures !Stale(After(s, input, t).failing, "dataset")
       <==> Usable(input.datasets.json, DatasetConfig(t))
            && if input.pools.Raised? then NotPublished !in s.failing else !Malformed(input.pools.json, t)
  {}

  /** So an exception can hide staleness that was there: after a malformed `pool.query` both names
      are stale, and after an exception in the next refresh neither is, with no map brought in. */
  lemma RaiseHidesStaleness(t: Tables)
    ensures var datasets := Answer(List([Obj(map["id" := Str("tank")])]));
            var failed := GetPool(datasets, Answer(Null), Answer(Null), map[]);
            var raised := GetPool(datasets, Answer(List([])), Raised, map[]);
            && Stale(Run([failed], t).failing, "pool") && Stale(Run([failed], t).failing, "dataset")
            && PossibleRun([failed, raised], t)
            && Run([failed, raised], t) == EMPTY
  {
    var tank := Obj(map["id" := Str("tank")]);
    var datasets := Answer(List([tank]));
    var failed := GetPool(datasets, Answer(Null), Answer(Null), map[]);
    var raised := GetPool(datasets, Answer(List([])), Raised, map[]);
    assert Uid(tank, DatasetConfig(t)) == Some(Text("tank"));
    assert Entries(List([tank])) == Some([tank]) && [tank][0] == tank;
    assert Usable(List([tank]), DatasetConfig(t));
    assert [failed][..0] == [] && [failed, raised][..1] == [failed];
    assert Run([], t) == EMPTY;
    assert Run([failed], t) == EMPTY.(failing := {PoolQuery, NotPublished});
  }

  /** What a refresh does to the dataset map: it brings in exactly the datasets of its answer, or
      leaves the map as it is. */
  lemma DatasetOutcome(s: Store, input: Input, t: Tables)
    ensures if BringsDatasets(input, t)
            then After(s, input, t).dataset.Keys == Uids(input.datasets.json, DatasetConfig(t))
            else After(s, input, t).dataset == s.dataset
  {
    if input.datasets.Answer? {
      UsableAgrees(s.dataset, input.datasets.json, DatasetConfig(t));
    }
  }

  /** Until a refresh brings in a new one, the dataset map is the last fresh one. */
  lemma {:induction false} DatasetIsLastFresh(inputs: seq<Input>, i: nat, t: Tables)
    requires i <= |inputs| && forall j :: i <= j < |inputs| ==> !BringsDatasets(inputs[j], t)
    ensures Run(inputs, t).dataset == Run(inputs[..i], t).dataset
  {
    if i == |inputs| {
      assert inputs[..i] == inputs;
    } else {
      var front := inputs[..|inputs| - 1];
      assert front[..i] == inputs[..i];
      DatasetIsLastFresh(front, i, t);
      DatasetOutcome(Run(front, t), inputs[|inputs| - 1], t);
    }
  }

  /** A refresh that does not publish pools, for whatever reason, changes neither the pool map nor
      the boot pool it remembers; a `get_pool` then changes no map at all. */
  lemma UnpublishedKeeps(s: Store, input: Input, t: Tables)
    requires !Publishes(input, t)
    ensures After(s, input, t).pool == s.pool && After(s, input, t).bootUid == s.bootUid
    ensures input.GetPool? ==> After(s, input, t).dataset == s.dataset
  {}

  // ---------------------------------------------------------------- the boot pool

  /** Once a boot pool has merged, there is always one remembered, and it is in the published map. */
  lemma {:induction false} BootPoolPersists(inputs: seq<Input>, i: nat, t: Tables)
    requires i <= |inputs| && Run(inputs[..i], t).bootUid.Some?
    ensures Run(inputs, t).bootUid.Some? && Run(inputs, t).bootUid.value in Run(inputs, t).pool
  {
    if i == |inputs| {
      assert inputs[..i] == inputs;
    } else {
      var front := inputs[..|inputs| - 1];
      assert front[..i] == inputs[..i];
      BootPoolPersists(front, i, t);
    }
    RunOk(inputs, t);
  }

  /** Neither the path nor the name of a record depends on its figures. */
  lemma RootIsStable(index: Index, datasets: Rows, pool: Fields, root: Option<Fields>)
    ensures RootOf(index, datasets, Finished(pool, root)) == RootOf(index, datasets, pool)
  {
    CapacityFrame(pool, root, "path");
    CapacityFrame(pool, root, "name");
    assert Get(Finished(pool, root), "path") == Get(pool, "path");
    assert Get(Finished(pool, root), "name") == Get(pool, "name");
  }

  /** The boot-pool entry is carried over by every publishing refresh from `i` on, and has no root
      dataset in any of them. */
  predicate CarriedFrom(inputs: seq<Input>, i: nat, entry: Fields, t: Tables) {
    forall j :: i <= j < |inputs| && Publishes(inputs[j], t) ==>
      && BootGuid(inputs[j].boot.json, t).None?
      && RootOf(inputs[j].index, Fetched(Run(inputs[..j], t).dataset, inputs[j].datasets.json, t), entry).None?
  }

  /** The published entry of the remembered boot pool. */
  function BootEntry(s: Store): Option<Fields> {
    if s.bootUid.Some? && s.bootUid.value in s.pool && s.pool[s.bootUid.value].Rec?
    then Some(s.pool[s.bootUid.value].fields)
    else None
  }

  /** Some refresh from `i` on publishes. */
  predicate PublishesFrom(inputs: seq<Input>, i: nat, t: Tables) {
    exists j :: i <= j < |inputs| && Publishes(inputs[j], t)
  }

  /** The remembered boot pool is `uid`, and its entry is `entry`, or what it is without a root dataset. */
  predicate Carried(s: Store, uid: Option<Key>, entry: Fields, again: bool) {
    s.bootUid == uid && BootEntry(s) == Some(if again then Finished(entry, None) else entry)
  }

  /** An entry carried over without a root dataset is computed once without one, and then stays. */
  lemma {:induction false} CarriedEntry(inputs: seq<Input>, i: nat, uid: Option<Key>, entry: Fields, t: Tables)
    requires i <= |inputs| && CarriedFrom(inputs, i, entry, t)
    requires Carried(Run(inputs[..i], t), uid, entry, false)
    ensures Carried(Run(inputs, t), uid, entry, PublishesFrom(inputs, i, t))
  {
    if i == |inputs| {
      assert inputs[..i] == inputs;
    } else {
      var front := inputs[..|inputs| - 1];
      assert front[..i] == inputs[..i];
      CarriedFront(inputs, i, entry, t);
      CarriedEntry(front, i, uid, entry, t);
      CarriedSnoc(inputs, i, uid, entry, t);
    }
  }

  lemma CarriedSnoc(inputs: seq<Input>, i: nat, uid: Option<Key>, entry: Fields, t: Tables)
    requires i < |inputs| && CarriedFrom(inputs, i, entry, t)
    requires Carried(Run(inputs[..|inputs| - 1], t), uid, entry, PublishesFrom(inputs[..|inputs| - 1], i, t))
    ensures Carried(Run(inputs, t), uid, entry, PublishesFrom(inputs, i, t))
  {
    CarriedFront(inputs, i, entry, t);
    CarriedStep(Run(inputs[..|inputs| - 1], t), inputs[|inputs| - 1], uid, entry,
                PublishesFrom(inputs[..|inputs| - 1], i, t), t);
  }

  lemma CarriedFront(inputs: seq<Input>, i: nat, entry: Fields, t: Tables)
    requires i < |inputs| && CarriedFrom(inputs, i, entry, t)
    ensures var (n, front) := (|inputs| - 1, inputs[..|inputs| - 1]);
            && CarriedFrom(front, i, entry, t)
            && (PublishesFrom(inputs, i, t) <==> PublishesFrom(front, i, t) || Publishes(inputs[n], t))
            && (Publishes(inputs[n], t) ==>
                  && BootGuid(inputs[n].boot.json, t).None?
                  && RootOf(inputs[n].index, Fetched(Run(front, t).dataset, inputs[n].datasets.json, t), entry).None?)
  {
    var (n, front) := (|inputs| - 1, inputs[..|inputs| - 1]);
    forall j | i <= j < n
      ensures front[j] == inputs[j] && front[..j] == inputs[..j]
    {}
    if PublishesFrom(front, i, t) {
      var j :| i <= j < n && Publishes(front[j], t);
      assert Publishes(inputs[j], t);
    }
  }

  lemma CarriedStep(s: Store, input: Input, uid: Option<Key>, entry: Fields, again: bool, t: Tables)
    requires Carried(s, uid, entry, again)
    requires Publishes(input, t) ==>
      && BootGuid(input.boot.json, t).None?
      && RootOf(input.index, Fetched(s.dataset, input.datasets.json, t), entry).None?
    ensures Carried(After(s, input, t), uid, entry, again || Publishes(input, t))
  {
    if Publishes(input, t) {
      FinishedIdempotent(entry, None);
      RootIsStable(input.index, Fetched(s.dataset, input.datasets.json, t), entry, None);
      CarriedOver(s, input, t);
    } else {
      UnpublishedKeeps(s, input, t);
    }
  }

  lemma CarriedOver(s: Store, input: Input, t: Tables)
    requires BootEntry(s).Some? && Publishes(input, t) && BootGuid(input.boot.json, t).None?
    requires RootOf(input.index, Fetched(s.dataset, input.datasets.json, t), BootEntry(s).value).None?
    ensures After(s, input, t).bootUid == s.bootUid
    ensures BootEntry(After(s, input, t)) == Some(Finished(BootEntry(s).value, None))
  {}

  /** A boot-pool entry that refresh `i` published without a root dataset, and that is carried over
      without one from then on, is republished unchanged for as long as that lasts. */
  lemma CarriedEntryIsKept(inputs: seq<Input>, i: nat, entry: Fields, t: Tables)
    requires i < |inputs| && Publishes(inputs[i], t) && BootEntry(Run(inputs[..i + 1], t)) == Some(entry)
    requires RootOf(inputs[i].index, Run(inputs[..i + 1], t).dataset, entry).None?
    requires CarriedFrom(inputs, i + 1, entry, t)
    ensures Run(inputs, t).bootUid == Run(inputs[..i + 1], t).bootUid && BootEntry(Run(inputs, t)) == Some(entry)
  {
    EntryIsSettled(inputs, i, entry, t);
    CarriedEntry(inputs, i + 1, Run(inputs[..i + 1], t).bootUid, entry, t);
  }

  /** An entry that refresh `i` published, with a root dataset or without, and that is carried over
      without one from then on: it is republished unchanged exactly if its figures are unknown or its
      own free figure agrees with them. */
  lemma LostRootEntry(inputs: seq<Input>, i: nat, entry: Fields, t: Tables)
    requires i < |inputs| && Publishes(inputs[i], t) && BootEntry(Run(inputs[..i + 1], t)) == Some(entry)
    requires CarriedFrom(inputs, i + 1, entry, t) && PublishesFrom(inputs, i + 1, t)
    ensures BootEntry(Run(inputs, t)) == Some(entry) <==> FreeAgrees(entry)
  {
    EntryIsSettled(inputs, i, entry, t);
    CarriedEntry(inputs, i + 1, Run(inputs[..i + 1], t).bootUid, entry, t);
    LostRootKeeps(entry, RootOf(inputs[i].index, Run(inputs[..i + 1], t).dataset, entry));
  }

  lemma EntryIsSettled(inputs: seq<Input>, i: nat, entry: Fields, t: Tables)
    requires i < |inputs| && Publishes(inputs[i], t) && BootEntry(Run(inputs[..i + 1], t)) == Some(entry)
    ensures Finished(entry, RootOf(inputs[i].index, Run(inputs[..i + 1], t).dataset, entry)) == entry
  {
    assert inputs[..i + 1][..i] == inputs[..i];
    RunOk(inputs[..i], t);
    PublishedIsSettled(Run(inputs[..i], t), inputs[i], t, Run(inputs[..i + 1], t).bootUid.value);
  }

  /** A published record is what its root dataset, or its lack of one, makes it. */
  lemma PublishedIsSettled(s: Store, input: Input, t: Tables, k: Key)
    requires StoreOk(s) && Publishes(input, t) && k in After(s, input, t).pool
    ensures var p := After(s, input, t).pool[k];
            && p.Rec?
            && Finished(p.fields, RootOf(input.index, After(s, input, t).dataset, p.fields)) == p.fields
  {
    var datasets := Fetched(s.dataset, input.datasets.json, t);
    QueriedOk(s.pool, input.pools.json, t);
    WithBootOk(s, Queried(s.pool, input.pools.json, t), input.boot.json, t);
    var pool := WithBoot(s.pool, s.bootUid, Queried(s.pool, input.pools.json, t), input.boot.json, t)[k].fields;
    var root := RootOf(input.index, datasets, pool);
    FinishedIdempotent(pool, root);
    RootIsStable(input.index, datasets, pool, root);
  }

  /** The record stays as it is when its figures are computed without a root dataset. */
  predicate StaysWithoutRoot(entry: Fields) {
    Finished(entry, None) == entry
  }

  /** Its figures are unknown, or its own free figure agrees with them. */
  predicate FreeAgrees(entry: Fields) {
    Unknown(entry) || (Coherent(entry) && ToOptionalInt(Get(entry, "free")) == Some(entry["available"].n))
  }

  /** An entry that was published with a root dataset and is then carried over without one keeps its
      figures exactly when they were unknown, or its own free figure agrees with them. */
  lemma LostRootKeeps(pool: Fields, root: Option<Fields>)
    ensures StaysWithoutRoot(Finished(pool, root)) <==> FreeAgrees(Finished(pool, root))
  {
    var e := Finished(pool, root);
    CapacityCoherent(pool, root);
    UsageIsRounded(pool, root);
    if Unknown(e) {
      UnknownStays(e);
    } else {
      KnownStays(e, e["available"].n, e["total"].n);
    }
  }

  lemma UnknownStays(entry: Fields)
    requires Unknown(entry) && "fragmentation" in entry && entry["fragmentation"].Int?
    ensures StaysWithoutRoot(entry)
  {
    assert CapacityFields(entry, None) == Unset(FIGURES);
    assert entry + Unset(FIGURES) == entry;
  }

  lemma KnownStays(entry: Fields, available: int, total: int)
    requires Coherent(entry) && "fragmentation" in entry && entry["fragmentation"].Int?
    requires entry["available"] == Int(available) && entry["total"] == Int(total)
    requires entry["usage"] == Int(RoundHalfEven(100 * (total - available), total))
    ensures StaysWithoutRoot(entry) <==> ToOptionalInt(Get(entry, "free")) == Some(available)
  {
    CapacityCoherent(entry, None);
    if ToOptionalInt(Get(entry, "free")) == Some(available) {
      assert CapacityFields(entry, None) == Known(available, total, total - available);
      assert entry + Known(available, total, total - available) == entry;
    }
  }

  // ---------------------------------------------------------------- pools and datasets agree

  /** Computing the record's figures again, from these datasets, changes nothing. */
  predicate Settled(cell: Cell, index: Index, datasets: Rows) {
    cell.Rec? && Finished(cell.fields, RootOf(index, datasets, cell.fields)) == cell.fields
  }

  /** The pools are what the datasets make them. */
  ghost predicate Agree(pool: Rows, dataset: Rows) {
    exists index :: IsIndex(index, dataset) && forall k :: k in pool ==> Settled(pool[k], index, dataset)
  }

  lemma PublishedAgree(s: Store, input: Input, t: Tables)
    requires StoreOk(s) && Publishes(input, t) && Possible(s, input, t)
    ensures Agree(After(s, input, t).pool, After(s, input, t).dataset)
  {
    var s' := After(s, input, t);
    forall k | k in s'.pool
      ensures Settled(s'.pool[k], input.index, s'.dataset)
    {
      PublishedIsSettled(s, input, t, k);
    }
    assert IsIndex(input.index, s'.dataset);
  }

  /** In every run, whatever is refreshed and however calls fail, the published pools are what the
      dataset map that was published with them made them. */
  lemma {:induction false} PoolsAgreeWithTheirDatasets(inputs: seq<Input>, t: Tables, i: int)
    requires PossibleRun(inputs, t) && LastDecides(PoolCapacity, inputs, i, t)
    ensures Run(inputs, t).pool == Run(inputs[..i + 1], t).pool
    ensures Agree(Run(inputs, t).pool, Run(inputs[..i + 1], t).dataset)
  {
    var (n, front) := (|inputs| - 1, inputs[..|inputs| - 1]);
    if i == n {
      assert inputs[..i + 1] == inputs;
      RunOk(front, t);
      PublishedAgree(Run(front, t), inputs[n], t);
    } else {
      PossibleFront(inputs, t);
      LastDecidesSnoc(PoolCapacity, inputs, t);
      assert front[..i + 1] == inputs[..i + 1];
      PoolsAgreeWithTheirDatasets(front, t, i);
      UnpublishedKeeps(Run(front, t), inputs[n], t);
    }
  }

  lemma PossibleFront(inputs: seq<Input>, t: Tables)
    requires PossibleRun(inputs, t) && inputs != []
    ensures PossibleRun(inputs[..|inputs| - 1], t)
  {
    var front := inputs[..|inputs| - 1];
    forall i | 0 <= i < |front|
      ensures Possible(Run(front[..i], t), front[i], t)
    {
      assert front[..i] == inputs[..i] && Possible(Run(inputs[..i], t), inputs[i], t);
    }
  }

  /** However its calls fail, `get_pool` never leaves a pool map that does not belong to the dataset
      map beside it. */
  lemma {:induction false} PoolsAndDatasetsAgree(inputs: seq<Input>, t: Tables)
    requires PossibleRun(inputs, t) && forall input :: input in inputs ==> input.GetPool?
    ensures Agree(Run(inputs, t).pool, Run(inputs, t).dataset)
  {
    if inputs == [] {
      assert IsIndex(map[], EMPTY.dataset);
    } else {
      var (n, front) := (|inputs| - 1, inputs[..|inputs| - 1]);
      PossibleFront(inputs, t);
      PoolsAndDatasetsAgree(front, t);
      RunOk(front, t);
      if Publishes(inputs[n], t) {
        PublishedAgree(Run(front, t), inputs[n], t);
      } else {
        UnpublishedKeeps(Run(front, t), inputs[n], t);
      }
    }
  }

  /** What agreeing means for a pool with a non-empty root dataset: its figures are that dataset's,
      or all unknown. */
  lemma SettledFigures(pool: Fields, index: Index, datasets: Rows)
    requires Settled(Rec(pool), index, datasets)
    ensures Coherent(pool) || Unknown(pool)
    ensures var root := RootOf(index, datasets, pool);
            Coherent(pool) && root.Some? && root.value != map[] ==>
              && ToOptionalInt(Get(root.value, "available")) == Some(pool["available"].n)
              && ToOptionalInt(Get(root.value, "used")) == Some(pool["allocated"].n)
  {
    CapacityCoherent(pool, RootOf(index, datasets, pool));
  }

  /** In every state of every run, each published pool's figures are coherent or all unknown. */
  lemma {:induction false} FiguresAlwaysCoherent(inputs: seq<Input>, t: Tables, k: Key)
    requires k in Run(inputs, t).pool
    ensures var p := Run(inputs, t).pool[k]; p.Rec? && (Coherent(p.fields) || Unknown(p.fields))
  {
    var (front, last) := (inputs[..|inputs| - 1], inputs[|inputs| - 1]);
    if Publishes(last, t) {
      RunOk(front, t);
      PublishedIsSettled(Run(front, t), last, t, k);
      SettledFigures(Run(inputs, t).pool[k].fields, last.index, Run(inputs, t).dataset);
    } else {
      UnpublishedKeeps(Run(front, t), last, t);
      FiguresAlwaysCoherent(front, t, k);
    }
  }
}
