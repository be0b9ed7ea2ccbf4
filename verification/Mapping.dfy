/** What the mapping engine promises, read off its closed form. */
module Mapping {
  import opened Wire
  import opened Json
  import opened Normalize

  // ---------------------------------------------------------------- which entry counts

  /** `Last` is the entry after which no entry writes the record. */
  lemma {:induction false} LastIsLast(source: seq<Json>, cfg: Config, k: Key)
    ensures match Last(source, cfg, k)
            case None => forall i :: 0 <= i < |source| ==> !Writes(source[i], cfg, k)
            case Some(f) => exists i :: 0 <= i < |source| && Writes(source[i], cfg, k) && source[i].fields == f
                                        && forall j :: i < j < |source| ==> !Writes(source[j], cfg, k)
  {
    if source != [] {
      var (n, front) := (|source| - 1, source[..|source| - 1]);
      LastIsLast(front, cfg, k);
      if Writes(source[n], cfg, k) {
        assert source[n].fields == Last(source, cfg, k).value;
      } else if Last(front, cfg, k).Some? {
        var i :| 0 <= i < |front| && Writes(front[i], cfg, k) && front[i].fields == Last(front, cfg, k).value
                 && forall j :: i < j < |front| ==> !Writes(front[j], cfg, k);
        assert Writes(source[i], cfg, k) && forall j :: i < j < |source| ==> !Writes(source[j], cfg, k);
      }
    }
  }

  lemma {:induction false} SeenIsPresent(source: seq<Json>, cfg: Config, k: Key)
    ensures k in Seen(source, cfg) <==> exists i :: 0 <= i < |source| && Uid(source[i], cfg) == Some(k)
  {
    if source != [] {
      var (n, front) := (|source| - 1, source[..|source| - 1]);
      SeenIsPresent(front, cfg, k);
      if k in Seen(front, cfg) {
        var i :| 0 <= i < |front| && Uid(front[i], cfg) == Some(k);
        assert Uid(source[i], cfg) == Some(k);
      } else if k in Seen(source, cfg) {
        assert Uid(source[n], cfg) == Some(k);
      }
    }
  }

  lemma {:induction false} WrittenIsSeen(source: seq<Json>, cfg: Config)
    ensures Written(source, cfg) <= Seen(source, cfg)
  {
    if source != [] {
      WrittenIsSeen(source[..|source| - 1], cfg);
    }
  }

  /** Of several specs for one name, the last one gives the field. */
  lemma {:induction false} MappedByLastSpec(entry: Fields, vals: seq<Spec>, i: nat)
    requires i < |vals| && forall j :: i < j < |vals| ==> vals[j].name != vals[i].name
    ensures vals[i].name in Mapped(entry, vals) && Mapped(entry, vals)[vals[i].name] == FieldValue(entry, vals[i])
  {
    if i < |vals| - 1 {
      MappedByLastSpec(entry, vals[..|vals| - 1], i);
    }
  }

  // ---------------------------------------------------------------- records

  /** Which records there are: those seen that existed before or have an unfiltered entry. */
  lemma ParsedKeys(rows: Rows, source: seq<Json>, cfg: Config)
    requires cfg.prune && Seen(source, cfg) != {}
    ensures Parsed(rows, List(source), cfg).Keys == rows.Keys * Seen(source, cfg) + Written(source, cfg)
  {
    WrittenIsSeen(source, cfg);
  }

  /** Where each field of a record comes from: a mapped field only from the last unfiltered entry,
      any other field from before, and an ensured field from its default if it was not there. */
  lemma FieldOrigin(rows: Rows, source: seq<Json>, cfg: Config, k: Key, name: string)
    requires Last(source, cfg, k).Some?
    ensures var p := Parsed(rows, List(source), cfg);
            var (e, base) := (Last(source, cfg, k).value, Base(rows, k));
            && k in p && p[k].Rec?
            && (name in p[k].fields <==>
                  name in Mapped(e, cfg.vals) || name in base || name in Defaults(cfg.ensureVals))
            && (name in p[k].fields ==>
                  p[k].fields[name] == if name in Mapped(e, cfg.vals) then Mapped(e, cfg.vals)[name]
                                       else if name in base then base[name]
                                       else Defaults(cfg.ensureVals)[name])
  {
    WrittenIffLast(source, cfg, k);
    WrittenIsSeen(source, cfg);
    assert source != [];
  }

  /** A record that is still present but filtered out keeps everything. */
  lemma FilteredIsUntouched(rows: Rows, source: seq<Json>, cfg: Config, k: Key)
    requires k in rows && k in Seen(source, cfg) && k !in Written(source, cfg)
    ensures k in Parsed(rows, List(source), cfg) && Parsed(rows, List(source), cfg)[k] == rows[k]
  {
    WrittenIffLast(source, cfg, k);
    assert source != [];
  }

  /** Without pruning, a record outside the source is never dropped. */
  lemma PartialSourceKeeps(rows: Rows, source: seq<Json>, cfg: Config, k: Key)
    requires !cfg.prune && source != [] && k in rows && k !in Seen(source, cfg)
    ensures k in Parsed(rows, List(source), cfg) && Parsed(rows, List(source), cfg)[k] == rows[k]
  {
    WrittenIsSeen(source, cfg);
    WrittenIffLast(source, cfg, k);
  }

  // ---------------------------------------------------------------- the operation

  predicate AllRecords(rows: Rows) {
    forall k :: k in rows ==> rows[k].Rec?
  }

  lemma {:induction false} WrittenIsNamed(source: seq<Json>, cfg: Config)
    ensures NoneKey !in Written(source, cfg)
  {
    if source != [] {
      WrittenIsNamed(source[..|source| - 1], cfg);
    }
  }

  lemma ParsedOk(rows: Rows, source: Json, cfg: Config)
    requires AllRecords(rows)
    ensures AllRecords(Parsed(rows, source, cfg))
    ensures NoneKey !in rows ==> NoneKey !in Parsed(rows, source, cfg)
  {
    var entries := Entries(source);
    if entries.Some? {
      WrittenIsNamed(entries.value, cfg);
    }
  }

  /** Parsing the same response again changes nothing. */
  lemma ParsedIdempotent(rows: Rows, source: Json, cfg: Config)
    ensures Parsed(Parsed(rows, source, cfg), source, cfg) == Parsed(rows, source, cfg)
  {
    var entries := Entries(source);
    if entries.Some? && entries.value != [] {
      var once := Parsed(rows, source, cfg);
      var twice := Parsed(once, source, cfg);
      WrittenIsSeen(entries.value, cfg);
      forall k | k in once
        ensures k in twice && twice[k] == once[k]
      {
        ParsedCell(rows, entries.value, cfg, k);
      }
      assert twice.Keys == once.Keys;
    }
  }

  lemma ParsedCell(rows: Rows, source: seq<Json>, cfg: Config, k: Key)
    requires k in Merge(rows, source, cfg)
    ensures forall once: Rows :: k in once && once[k] == Merge(rows, source, cfg)[k] ==>
              MergedCell(once, Last(source, cfg, k), cfg, k) == once[k]
  {
    WrittenIffLast(source, cfg, k);
    var last := Last(source, cfg, k);
    if last.Some? {
      AppliedTwice(Base(rows, k), last.value, last.value, cfg);
    }
  }

  /** `_note_primary_query_outcome`'s test of a response. */
  predicate Usable(source: Json, cfg: Config) {
    var entries := Entries(source);
    entries.Some? && (entries.value == [] || exists i :: 0 <= i < |entries.value| && Uid(entries.value[i], cfg).Some?)
  }

  lemma UsableIffSeen(source: Json, cfg: Config)
    requires Entries(source).Some? && Entries(source).value != []
    ensures Usable(source, cfg) <==> Seen(Entries(source).value, cfg) != {}
  {
    var entries := Entries(source).value;
    if Usable(source, cfg) {
      var i :| 0 <= i < |entries| && Uid(entries[i], cfg).Some?;
      SeenIsPresent(entries, cfg, Uid(entries[i], cfg).value);
    } else if Seen(entries, cfg) != {} {
      var k :| k in Seen(entries, cfg);
      SeenIsPresent(entries, cfg, k);
    }
  }

  /** The uids of a response. */
  function Uids(source: Json, cfg: Config): set<Key> {
    if Entries(source).Some? then Seen(Entries(source).value, cfg) else {}
  }

  /** The test agrees with the engine: an unusable response changes no map at all, and after a
      usable one a map without filters holds exactly the response's records. */
  lemma UsableAgrees(rows: Rows, source: Json, cfg: Config)
    requires cfg.prune && cfg.only == [] && cfg.skip == []
    ensures !Usable(source, cfg) ==> Parsed(rows, source, cfg) == rows
    ensures Usable(source, cfg) ==> Parsed(rows, source, cfg).Keys == Uids(source, cfg)
    ensures Usable(source, cfg) ==> forall k :: k in Parsed(rows, source, cfg) ==> Parsed(rows, source, cfg)[k].Rec?
  {
    var entries := Entries(source);
    if entries.Some? && entries.value != [] {
      UsableIffSeen(source, cfg);
      AllWritten(entries.value, cfg);
      if Seen(entries.value, cfg) == {} {
        NothingWritten(rows, entries.value, cfg);
      } else {
        forall k | k in Written(entries.value, cfg)
          ensures Last(entries.value, cfg, k).Some?
        {
          WrittenIffLast(entries.value, cfg, k);
        }
      }
    }
  }

  /** Then each record is made from the last entry with its uid. */
  lemma UsableRecords(rows: Rows, source: Json, cfg: Config)
    requires cfg.prune && cfg.only == [] && cfg.skip == [] && Usable(source, cfg)
    ensures forall k :: k in Parsed(rows, source, cfg) ==>
              var last := Last(Entries(source).value, cfg, k);
              last.Some? && Parsed(rows, source, cfg)[k] == Rec(Applied(Base(rows, k), last.value, cfg))
  {
    var entries := Entries(source).value;
    UsableAgrees(rows, source, cfg);
    AllWritten(entries, cfg);
    forall k | k in Seen(entries, cfg)
      ensures Last(entries, cfg, k).Some?
    {
      WrittenIffLast(entries, cfg, k);
    }
  }

  /** What a response of one entry makes of an empty map. */
  lemma OneEntry(entry: Fields, cfg: Config, k: Key)
    requires cfg.prune && cfg.only == [] && cfg.skip == [] && Uid(Obj(entry), cfg) == Some(k)
    ensures Parsed(map[], List([Obj(entry)]), cfg) == map[k := Rec(Applied(map[], entry, cfg))]
  {
    var source := [Obj(entry)];
    assert source[..0] == [] && !Skipped(source[0], cfg);
    assert Last(source, cfg, k) == Some(entry) && Seen(source, cfg) == {k} && Written(source, cfg) == {k};
  }

  /** It is the exact test: some map of records changes whenever a response is usable. */
  lemma UsableIffChanges(source: Json, cfg: Config)
    requires cfg.prune && cfg.only == [] && cfg.skip == []
    ensures Usable(source, cfg) <==>
              exists rows: Rows :: AllRecords(rows) && NoneKey !in rows && Parsed(rows, source, cfg) != rows
  {
    forall rows: Rows
      ensures !Usable(source, cfg) ==> Parsed(rows, source, cfg) == rows
    {
      UsableAgrees(rows, source, cfg);
    }
    if Usable(source, cfg) {
      var rows: Rows := if Entries(source).value == [] then map[Text("") := Rec(map[])] else map[];
      assert AllRecords(rows) && NoneKey !in rows;
      if Entries(source).value != [] {
        UsableIffSeen(source, cfg);
        UsableAgrees(rows, source, cfg);
        assert rows.Keys == {} && Parsed(rows, source, cfg).Keys != {};
      } else {
        assert Text("") in rows && Parsed(rows, source, cfg) == map[];
      }
      assert Parsed(rows, source, cfg) != rows;
    }
  }

  lemma {:induction false} AllWritten(source: seq<Json>, cfg: Config)
    requires cfg.only == [] && cfg.skip == []
    ensures Written(source, cfg) == Seen(source, cfg)
  {
    if source != [] {
      AllWritten(source[..|source| - 1], cfg);
    }
  }

  lemma NothingWritten(rows: Rows, source: seq<Json>, cfg: Config)
    requires Written(source, cfg) == {}
    ensures Merge(rows, source, cfg) == rows
  {
    forall k | k in rows
      ensures Last(source, cfg, k).None?
    {
      WrittenIffLast(source, cfg, k);
    }
  }
}
