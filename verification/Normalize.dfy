/** The mapping engine: `parse_api` as the loop it is, and the closed form it computes. */
module Normalize {
  import opened Wire
  import opened Text
  import opened Json

  /** A value spec's type with its default; a flag's default is before reversal. */
  datatype Kind = Value(default: Json) | Flag(fallback: bool, reverse: bool)

  /** `convert` stands for the spec's conversion, or the identity. */
  datatype Spec = Spec(name: string, source: string, kind: Kind, convert: Json -> Json)

  /** No conversion. */
  function Same(j: Json): Json {
    j
  }

  function Plain(name: string, default: Json): Spec {
    Spec(name, name, Value(default), Same)
  }

  function Switch(name: string): Spec {
    Spec(name, name, Flag(false, false), Same)
  }

  /** A keyed `parse_api` call. */
  datatype Config = Config(key: string, secondary: Option<string>, vals: seq<Spec>, ensureVals: seq<Spec>,
                           only: seq<(string, Json)>, skip: seq<(string, Json)>, prune: bool)

  /** A value of an endpoint map: a record, or something a corrupted snapshot left there. */
  datatype Cell = Rec(fields: Fields) | Junk(value: Json)

  type Rows = map<Key, Cell>

  // ---------------------------------------------------------------- one field

  /** `_resolve_source`; `None` is the missing sentinel. */
  function Resolve(j: Json, path: string): Option<Json>
    decreases |path|
  {
    var n := Find(path, '/');
    if !j.Obj? || path[..n] !in j.fields then None
    else if n == |path| then Some(j.fields[path[..n]])
    else Resolve(j.fields[path[..n]], path[n + 1..])
  }

  function Lower(s: string): (r: string)
    ensures |r| == |s|
  {
    if s == "" then ""
    else [if 'A' <= s[0] <= 'Z' then (s[0] as int + 32) as char else s[0]] + Lower(s[1..])
  }

  function CoerceBool(j: Json, default: bool): bool {
    match j
    case Bool(b) => b
    case Str(s) =>
      var token := Lower(Strip(s));
      if token in ["on", "yes", "up", "true", "1"] then true
      else if token in ["off", "no", "down", "false", "0"] then false
      else default
    case _ => default
  }

  /** `_spec_default` */
  function SpecDefault(spec: Spec): Json {
    match spec.kind
    case Value(default) => default
    case Flag(fallback, reverse) => Bool(if reverse then !fallback else fallback)
  }

  /** What `_set_val` writes; a text is cut at 255 characters. */
  function FieldValue(entry: Fields, spec: Spec): Json {
    var raw := Resolve(Obj(entry), spec.source);
    spec.convert(
      match spec.kind
      case Value(default) =>
        if raw.None? then default
        else if raw.value.Str? && |raw.value.s| > 255 then Str(raw.value.s[..255])
        else raw.value
      case Flag(fallback, reverse) =>
        if raw.None? then SpecDefault(spec)
        else
          var b := CoerceBool(raw.value, if reverse then !fallback else fallback);
          Bool(if reverse then !b else b))
  }

  // ---------------------------------------------------------------- one entry

  /** `get_uid` without `key_search` */
  function Uid(entry: Json, cfg: Config): Option<Key> {
    if !entry.Obj? then None
    else
      var uid := if cfg.key in entry.fields then entry.fields[cfg.key]
                 else if cfg.secondary.Some? then Get(entry.fields, cfg.secondary.value)
                 else Null;
      if uid.Null? then None else KeyOf(uid)
  }

  predicate MatchesOnly(entry: Json, only: seq<(string, Json)>) {
    entry.Obj? && forall i :: 0 <= i < |only| ==> Equal(Get(entry.fields, only[i].0), only[i].1)
  }

  predicate CanSkip(entry: Json, skip: seq<(string, Json)>) {
    entry.Obj? && exists i :: 0 <= i < |skip| && SkipsBy(entry.fields, skip[i])
  }

  predicate SkipsBy(entry: Fields, filter: (string, Json)) {
    if filter.0 in entry then Equal(entry[filter.0], filter.1) else filter.1 == Str("")
  }

  predicate Skipped(entry: Json, cfg: Config) {
    (cfg.only != [] && !MatchesOnly(entry, cfg.only)) || CanSkip(entry, cfg.skip)
  }

  /** Whether `entry` writes the record of `k`. */
  predicate Writes(entry: Json, cfg: Config, k: Key) {
    Uid(entry, cfg) == Some(k) && !Skipped(entry, cfg)
  }

  // ---------------------------------------------------------------- the closed form

  /** The fields an entry sets: of two specs for one name, the later one wins. */
  function Mapped(entry: Fields, vals: seq<Spec>): (m: Fields)
    ensures forall name :: name in m <==> exists i :: 0 <= i < |vals| && vals[i].name == name
  {
    if vals == [] then map[]
    else
      var spec := vals[|vals| - 1];
      Mapped(entry, vals[..|vals| - 1])[spec.name := FieldValue(entry, spec)]
  }

  /** The fields that are ensured: of two specs for one name, the earlier one wins. */
  function Defaults(vals: seq<Spec>): Fields {
    if vals == [] then map[]
    else
      var spec := vals[|vals| - 1];
      var earlier := Defaults(vals[..|vals| - 1]);
      if spec.name in earlier then earlier else earlier[spec.name := SpecDefault(spec)]
  }

  function Base(rows: Rows, k: Key): Fields {
    if k in rows && rows[k].Rec? then rows[k].fields else map[]
  }

  /** A record after one entry: mapped fields from the entry, the others kept, defaults where absent. */
  function Applied(base: Fields, entry: Fields, cfg: Config): Fields {
    Defaults(cfg.ensureVals) + (base + Mapped(entry, cfg.vals))
  }

  /** The last entry that writes the record of `k`. */
  function Last(source: seq<Json>, cfg: Config, k: Key): Option<Fields> {
    if source == [] then None
    else if Writes(source[|source| - 1], cfg, k) then Some(source[|source| - 1].fields)
    else Last(source[..|source| - 1], cfg, k)
  }

  /** The uids present in the source, filtered or not. */
  function Seen(source: seq<Json>, cfg: Config): set<Key> {
    if source == [] then {}
    else
      var uid := Uid(source[|source| - 1], cfg);
      Seen(source[..|source| - 1], cfg) + if uid.Some? then {uid.value} else {}
  }

  /** The uids of the entries that are not filtered. */
  function Written(source: seq<Json>, cfg: Config): set<Key> {
    if source == [] then {}
    else
      var e := source[|source| - 1];
      var uid := Uid(e, cfg);
      Written(source[..|source| - 1], cfg) + if uid.Some? && !Skipped(e, cfg) then {uid.value} else {}
  }

  /** The records before stale ones are dropped. */
  function Merge(rows: Rows, source: seq<Json>, cfg: Config): Rows {
    map k | k in rows.Keys + Written(source, cfg) :: MergedCell(rows, Last(source, cfg, k), cfg, k)
  }

  /** The record of `k`, given the last entry that writes it. */
  function MergedCell(rows: Rows, last: Option<Fields>, cfg: Config, k: Key): Cell {
    if last.Some? then Rec(Applied(Base(rows, k), last.value, cfg))
    else if k in rows then rows[k]
    else Rec(map[])
  }

  /** `None` for a source that is malformed or absent. */
  function Entries(source: Json): Option<seq<Json>> {
    match source
    case Obj(_) => Some([source])
    case List(items) => Some(items)
    case _ => None
  }

  /** What `parse_api` makes of `rows`. */
  function Parsed(rows: Rows, source: Json, cfg: Config): Rows {
    var entries := Entries(source);
    if entries.None? then rows
    else if entries.value == [] then map[]
    else
      var merged := Merge(rows, entries.value, cfg);
      var seen := Seen(entries.value, cfg);
      if cfg.prune && seen != {} then map k | k in merged && k in seen :: merged[k] else merged
  }

  // ---------------------------------------------------------------- the loop

  lemma Snoc(source: seq<Json>, e: Json, cfg: Config)
    ensures (source + [e])[..|source|] == source
    ensures Seen(source + [e], cfg) == Seen(source, cfg) + if Uid(e, cfg).Some? then {Uid(e, cfg).value} else {}
    ensures Written(source + [e], cfg)
         == Written(source, cfg) + if Uid(e, cfg).Some? && !Skipped(e, cfg) then {Uid(e, cfg).value} else {}
  {
    assert (source + [e])[..|source|] == source;
  }

  lemma LastSnoc(source: seq<Json>, e: Json, cfg: Config, k: Key)
    ensures Last(source + [e], cfg, k)
         == if Writes(e, cfg, k) then Some(e.fields) else Last(source, cfg, k)
  {
    assert (source + [e])[..|source|] == source;
  }

  lemma MappedSnoc(entry: Fields, vals: seq<Spec>, i: nat, base: Fields)
    requires i < |vals|
    ensures base + Mapped(entry, vals[..i + 1])
         == (base + Mapped(entry, vals[..i]))[vals[i].name := FieldValue(entry, vals[i])]
  {
    assert vals[..i + 1][..i] == vals[..i];
    assert vals[..i + 1][i] == vals[i];
  }

  lemma DefaultsSnoc(vals: seq<Spec>, i: nat, base: Fields)
    requires i < |vals|
    ensures var (d, d') := (Defaults(vals[..i]) + base, Defaults(vals[..i + 1]) + base);
            d' == if vals[i].name in d then d else d[vals[i].name := SpecDefault(vals[i])]
  {
    assert vals[..i + 1][..i] == vals[..i];
    assert vals[..i + 1][i] == vals[i];
  }

  lemma MappedSameNames(e: Fields, e': Fields, vals: seq<Spec>)
    ensures Mapped(e, vals).Keys == Mapped(e', vals).Keys
  {
    forall name
      ensures name in Mapped(e, vals) <==> name in Mapped(e', vals)
    {}
  }

  /** Of two entries for one record only the later one shows. */
  lemma AppliedTwice(base: Fields, e: Fields, e': Fields, cfg: Config)
    ensures Applied(Applied(base, e, cfg), e', cfg) == Applied(base, e', cfg)
  {
    MappedSameNames(e, e', cfg.vals);
    Overlay(Defaults(cfg.ensureVals), base, Mapped(e, cfg.vals), Mapped(e', cfg.vals));
  }

  lemma Overlay(d: Fields, base: Fields, m: Fields, m': Fields)
    requires m.Keys == m'.Keys
    ensures d + ((d + (base + m)) + m') == d + (base + m')
  {
    var (l, r) := (d + ((d + (base + m)) + m'), d + (base + m'));
    forall name
      ensures name in l <==> name in r
      ensures name in l ==> l[name] == r[name]
    {}
  }

  /** One turn of the loop on an entry that is not filtered. */
  lemma MergeWrites(rows: Rows, source: seq<Json>, e: Json, cfg: Config, k: Key)
    requires Writes(e, cfg, k)
    ensures Merge(rows, source + [e], cfg)
         == Merge(rows, source, cfg)[k := Rec(Applied(Base(Merge(rows, source, cfg), k), e.fields, cfg))]
  {
    MergedBase(rows, source, e, cfg, k);
    Snoc(source, e, cfg);
    forall k'
      ensures Last(source + [e], cfg, k') == if k' == k then Some(e.fields) else Last(source, cfg, k')
    {
      LastSnoc(source, e, cfg, k');
    }
  }

  /** What earlier entries left in the record does not matter to the next one. */
  lemma MergedBase(rows: Rows, source: seq<Json>, e: Json, cfg: Config, k: Key)
    requires Writes(e, cfg, k)
    ensures Applied(Base(Merge(rows, source, cfg), k), e.fields, cfg) == Applied(Base(rows, k), e.fields, cfg)
  {
    WrittenIffLast(source, cfg, k);
    if Last(source, cfg, k).Some? {
      AppliedTwice(Base(rows, k), Last(source, cfg, k).value, e.fields, cfg);
    }
  }

  lemma {:induction false} WrittenIffLast(source: seq<Json>, cfg: Config, k: Key)
    ensures k in Written(source, cfg) <==> Last(source, cfg, k).Some?
  {
    if source != [] {
      WrittenIffLast(source[..|source| - 1], cfg, k);
    }
  }

  lemma MergeSkips(rows: Rows, source: seq<Json>, e: Json, cfg: Config)
    requires Uid(e, cfg).None? || Skipped(e, cfg)
    ensures Merge(rows, source + [e], cfg) == Merge(rows, source, cfg)
  {
    Snoc(source, e, cfg);
    forall k
      ensures Last(source + [e], cfg, k) == Last(source, cfg, k)
    {
      LastSnoc(source, e, cfg, k);
    }
  }

  // ---------------------------------------------------------------- dictionaries

  /** A record: a dictionary object, which several maps could share. */
  class Record {
    var fields: Fields

    constructor (fields: Fields)
      ensures this.fields == fields
    {
      this.fields := fields;
    }

    method FillVals(entry: Fields, vals: seq<Spec>)
      modifies this
      ensures fields == old(fields) + Mapped(entry, vals)
    {
      assert fields + Mapped(entry, []) == fields;
      for i := 0 to |vals|
        invariant fields == old(fields) + Mapped(entry, vals[..i])
      {
        MappedSnoc(entry, vals, i, old(fields));
        fields := fields[vals[i].name := FieldValue(entry, vals[i])];
      }
      assert vals[..|vals|] == vals;
    }

    method FillEnsureVals(ensureVals: seq<Spec>)
      modifies this
      ensures fields == Defaults(ensureVals) + old(fields)
    {
      assert Defaults([]) + fields == fields;
      for i := 0 to |ensureVals|
        invariant fields == Defaults(ensureVals[..i]) + old(fields)
      {
        DefaultsSnoc(ensureVals, i, old(fields));
        if ensureVals[i].name !in fields {
          fields := fields[ensureVals[i].name := SpecDefault(ensureVals[i])];
        }
      }
      assert ensureVals[..|ensureVals|] == ensureVals;
    }

    /** `_apply_entry` */
    method Apply(entry: Fields, cfg: Config)
      modifies this
      ensures fields == Applied(old(fields), entry, cfg)
    {
      FillVals(entry, cfg.vals);
      FillEnsureVals(cfg.ensureVals);
    }
  }

  /** What a map holds under a key: a reference to a record, or something else. */
  datatype Slot = Ref(record: Record) | Loose(value: Json)

  type Slots = map<Key, Slot>

  /** No record is under two keys. */
  ghost predicate Separate(slots: Slots) {
    forall k, k' :: k in slots && k' in slots && k != k' && slots[k].Ref? ==> slots[k] != slots[k']
  }

  lemma WrittenTwice(rows: Rows, uid: Key, cell: Cell, cell': Cell)
    ensures rows[uid := cell][uid := cell'] == rows[uid := cell']
  {}

  /** An endpoint map: a dictionary object that several variables may name. `rows` is what it holds,
      and `repr` has its records (and maybe others that it has dropped). */
  class Endpoint {
    var slots: Slots
    ghost var rows: Rows
    ghost var repr: set<Record>

    constructor ()
      ensures Valid() && rows == map[] && repr == {}
    {
      slots, rows, repr := map[], map[], {};
    }

    /** `rows[k]` is what is under the key `k`, other than the fields of a record. */
    ghost predicate Holds(k: Key)
      requires k in slots && k in rows
      reads this
    {
      match slots[k]
      case Ref(record) => record in repr && rows[k].Rec?
      case Loose(value) => rows[k] == Junk(value)
    }

    /** The map is sound, except that the record under `but` may not have the fields in `rows`. */
    ghost predicate ValidBut(but: Option<Key>)
      reads this, repr
    {
      && rows.Keys == slots.Keys && Separate(slots)
      && forall k :: k in slots ==>
           Holds(k) && (slots[k].Ref? && but != Some(k) ==> slots[k].record.fields == rows[k].fields)
    }

    ghost predicate Valid()
      reads this, repr
    {
      ValidBut(None)
    }

    /** Takes note that the record under `uid` was written. */
    ghost method Written(uid: Key)
      requires ValidBut(Some(uid)) && uid in slots && slots[uid].Ref?
      modifies this`rows
      ensures Valid() && rows == old(rows)[uid := Rec(slots[uid].record.fields)]
    {
      rows := rows[uid := Rec(slots[uid].record.fields)];
    }

    /** `self[uid] = record`, for a record that is nowhere in the map. */
    method Put(uid: Key, record: Record)
      requires Valid() && record !in repr
      modifies this
      ensures Valid() && slots == old(slots)[uid := Ref(record)]
      ensures repr == old(repr) + {record} && rows == old(rows)[uid := Rec(record.fields)]
    {
      slots := slots[uid := Ref(record)];
      rows, repr := rows[uid := Rec(record.fields)], repr + {record};
    }

    /** `copy.deepcopy`: another map, with records of its own. */
    method DeepCopy() returns (copy: Endpoint)
      requires Valid()
      ensures copy.Valid() && fresh(copy) && fresh(copy.repr) && copy.rows == rows
    {
      copy := new Endpoint();
      var todo := slots.Keys;
      while todo != {}
        invariant todo <= slots.Keys
        invariant copy.Valid() && fresh(copy.repr) && copy.rows == rows - todo
        decreases todo
      {
        var k :| k in todo;
        assert Holds(k) && (rows - todo)[k := rows[k]] == rows - (todo - {k});
        CopyInto(copy, k);
        todo := todo - {k};
      }
    }

    /** The value under `k`, in `copy`. */
    method CopyInto(copy: Endpoint, k: Key)
      requires Valid() && copy.Valid() && copy != this && k in slots
      modifies copy
      ensures copy.Valid() && copy.rows == old(copy.rows)[k := rows[k]] && fresh(copy.repr - old(copy.repr))
    {
      assert Holds(k);
      match slots[k] {
        case Ref(record) =>
          var twin := new Record(record.fields);
          copy.Put(k, twin);
        case Loose(value) => copy.PutLoose(k, value);
      }
    }

    method PutLoose(uid: Key, value: Json)
      requires Valid()
      modifies this
      ensures Valid() && repr == old(repr) && rows == old(rows)[uid := Junk(value)]
    {
      slots := slots[uid := Loose(value)];
      rows := rows[uid := Junk(value)];
    }

    /** `_resolve_target`: the record at `uid`, a new one if there is none. */
    method ResolveTarget(uid: Key) returns (target: Record)
      requires Valid()
      modifies this
      ensures Valid() && uid in slots && slots[uid] == Ref(target) && fresh(repr - old(repr))
      ensures target.fields == Base(old(rows), uid) && rows == old(rows)[uid := Rec(target.fields)]
    {
      if uid !in slots || slots[uid].Loose? {
        target := new Record(map[]);
        Put(uid, target);
      } else {
        target := slots[uid].record;
      }
    }

    /** `_resolve_entry_uid` and `_apply_entry` for an entry that has a uid and is not filtered. */
    method ApplyEntry(entry: Fields, uid: Key, cfg: Config)
      requires Valid()
      modifies this, repr
      ensures Valid() && fresh(repr - old(repr))
      ensures rows == old(rows)[uid := Rec(Applied(Base(old(rows), uid), entry, cfg))]
    {
      var target := ResolveTarget(uid);
      target.Apply(entry, cfg);
      Written(uid);
      WrittenTwice(old(rows), uid, Rec(Base(old(rows), uid)), Rec(target.fields));
    }

    /** `_prune_stale_uids` */
    method PruneStaleUids(seen: set<Key>)
      requires Valid()
      modifies this
      ensures Valid() && repr == old(repr)
      ensures rows == map k | k in old(rows) && k in seen :: old(rows)[k]
    {
      var stale := slots.Keys - seen;
      ghost var gone: set<Key> := {};
      while stale != {}
        invariant Valid() && repr == old(repr) && gone + stale == old(slots).Keys - seen
        invariant stale <= slots.Keys && rows == old(rows) - gone
        decreases stale
      {
        var k :| k in stale;
        Remove(k);
        gone, stale := gone + {k}, stale - {k};
      }
    }

    /** `del self[uid]` */
    method Remove(uid: Key)
      requires Valid()
      modifies this
      ensures Valid() && repr == old(repr) && rows == old(rows) - {uid} && slots == old(slots) - {uid}
    {
      slots := slots - {uid};
      rows := rows - {uid};
    }

    /** The loop of `parse_api` over a non-empty source. */
    method ApplyEntries(source: seq<Json>, cfg: Config) returns (seen: set<Key>)
      requires Valid()
      modifies this, repr
      ensures Valid() && fresh(repr - old(repr))
      ensures rows == Merge(old(rows), source, cfg) && seen == Seen(source, cfg)
    {
      seen := {};
      for i := 0 to |source|
        invariant Valid() && fresh(repr - old(repr))
        invariant rows == Merge(old(rows), source[..i], cfg) && seen == Seen(source[..i], cfg)
      {
        assert source[..i + 1] == source[..i] + [source[i]];
        Snoc(source[..i], source[i], cfg);
        var entry := source[i];
        var uid := Uid(entry, cfg);
        if uid.Some? {
          seen := seen + {uid.value};
        }
        if Skipped(entry, cfg) || uid.None? {
          MergeSkips(old(rows), source[..i], entry, cfg);
        } else {
          MergeWrites(old(rows), source[..i], entry, cfg, uid.value);
          ApplyEntry(entry.fields, uid.value, cfg);
        }
      }
      assert source[..|source|] == source;
    }
  }

  /** `parse_api` in keyed mode: it changes `data` and its records in place, except that an explicitly
      empty list leaves them as they were and returns a new, empty map. */
  method ParseApi(data: Endpoint, source: Json, cfg: Config) returns (result: Endpoint)
    requires data.Valid()
    modifies data, data.repr
    ensures result.Valid() && fresh(result.repr - old(data.repr)) && result.rows == Parsed(old(data.rows), source, cfg)
    ensures Entries(source) == Some([]) ==> fresh(result) && data.Valid() && data.rows == old(data.rows)
    ensures Entries(source) != Some([]) ==> result == data
  {
    var entries := Entries(source);
    if entries.None? {
      return data;
    }
    if entries.value == [] {
      result := new Endpoint();
      return;
    }
    var seen := data.ApplyEntries(entries.value, cfg);
    if cfg.prune && seen != {} {
      data.PruneStaleUids(seen);
    }
    return data;
  }

  /** `parse_api` on a deep copy: the result shares nothing with `data`. */
  method ParseCopy(data: Endpoint, source: Json, cfg: Config) returns (result: Endpoint)
    requires data.Valid()
    ensures result.Valid() && fresh(result) && fresh(result.repr) && result.rows == Parsed(data.rows, source, cfg)
  {
    var copy := data.DeepCopy();
    result := ParseApi(copy, source, cfg);
  }
}
