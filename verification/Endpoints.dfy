/** `get_scrub`, `get_service`, `get_interface` and `get_vm`. */
module Endpoints {
  import opened Wire
  import Text
  import opened Json
  import opened Normalize
  import opened Mapping
  import opened Capacity

  datatype Kind = Scrub | Service | Interface | Machine

  // ---------------------------------------------------------------- spec tables

  function Vals(kind: Kind): seq<Spec> {
    match kind
    case Scrub => [Plain("id", Null), Plain("pool_name", Str("")), Switch("enabled")]
    case Service => [Plain("id", Int(0)), Plain("service", Str("unknown")), Plain("name", Str("")), Switch("enable"),
                     Plain("state", Str("unknown")), Plain("pids", List([]))]
    case Interface => [Plain("id", Str("unknown")), Plain("name", Str("unknown")), Plain("description", Str("unknown")),
                       Plain("mtu", Str("unknown")), Nested("link_state"), Nested("active_media_type"),
                       Nested("active_media_subtype"), Nested("link_address")]
    case Machine => [Plain("id", Int(0)), Plain("name", Str("unknown")), Plain("type", Str("unknown")),
                     Spec("cpu", "vcpus", Value(Int(0)), Same), Plain("memory", Int(0)), Switch("autostart"),
                     Spec("image", "description", Value(Str("unknown")), Same),
                     Spec("status", "status/state", Value(Str("unknown")), Same)]
  }

  function Nested(name: string): Spec {
    Spec(name, "state/" + name, Value(Str("unknown")), Same)
  }

  function EnsureVals(kind: Kind): seq<Spec> {
    match kind
    case Scrub => []
    case Service => [Switch("running"), Plain("display_name", Str("unknown"))]
    case Interface => [Plain("rx", Int(0)), Plain("tx", Int(0))]
    case Machine => [Switch("running")]
  }

  function ConfigOf(kind: Kind): Config {
    Config("id", None, Vals(kind), EnsureVals(kind), [], [], true)
  }

  // ---------------------------------------------------------------- derived fields

  const DISPLAY_NAMES: map<string, string> :=
    map["afp" := "AFP", "cifs" := "SMB", "dynamicdns" := "Dynamic DNS", "ftp" := "FTP", "iscsitarget" := "iSCSI",
        "lldp" := "LLDP", "nfs" := "NFS", "openvpn_client" := "OpenVPN Client", "openvpn_server" := "OpenVPN Server",
        "rsync" := "Rsync", "s3" := "S3", "snmp" := "SNMP", "ssh" := "SSH", "tftp" := "TFTP", "ups" := "UPS",
        "webdav" := "WebDAV"]

  predicate Unnamed(fields: Fields) {
    Falsy(Get(fields, "name")) || Get(fields, "name") == Str("unknown")
  }

  /** The field a record of this kind must have. */
  function StateField(kind: Kind): Option<string> {
    match kind
    case Service => Some("state")
    case Machine => Some("status")
    case _ => None
  }

  /** A memory reading divided by 1024, if Python can divide and round it. */
  function MemoryOf(j: Json): Option<real> {
    match j
    case Null => Some(0.0)
    case Bool(b) => Some(if b then 1.0 / 1024.0 else 0.0)
    case Int(n) => if -1024 * FLOAT_LIMIT < n < 1024 * FLOAT_LIMIT then Some(n as real / 1024.0) else None
    case Float(r) => Some(r / 1024.0)
    case _ => None
  }

  /** Python's `round` */
  function Round(r: real): int {
    var rest := r - r.Floor as real;
    if rest < 0.5 || (rest == 0.5 && r.Floor % 2 == 0) then r.Floor else r.Floor + 1
  }

  /** The field that is used as it must not be. */
  predicate Unreadable(kind: Kind, fields: Fields) {
    match kind
    case Service => Unnamed(fields) && KeyOf(Get(fields, "service")).None?
    case Machine => MemoryOf(Get(fields, "memory")).None?
    case _ => false
  }

  /** Whether deriving the fields raises: the state is missing, the service has no name of its own and
      its id cannot be looked up, or the memory is not a number. */
  predicate Raises(kind: Kind, fields: Fields) {
    (StateField(kind).Some? && StateField(kind).value !in fields) || Unreadable(kind, fields)
  }

  function DisplayName(fields: Fields): Json {
    var service := Get(fields, "service");
    if !Unnamed(fields) then Get(fields, "name")
    else if service.Str? && service.s in DISPLAY_NAMES then Str(DISPLAY_NAMES[service.s])
    else if "service" in fields then service
    else Str("unknown")
  }

  /** A record with its derived fields. */
  function Derived(kind: Kind, fields: Fields): Fields {
    match kind
    case Scrub => fields
    case Service =>
      fields["running" := Bool(Get(fields, "state") == Str("RUNNING"))]["display_name" := DisplayName(fields)]
    case Interface => fields["link_up" := Bool(Get(fields, "link_state") == Str("LINK_STATE_UP"))]
    case Machine =>
      var memory := MemoryOf(Get(fields, "memory"));
      fields["memory" := Int(if memory.Some? then Round(memory.value) else 0)]
            ["running" := Bool(Get(fields, "status") == Str("RUNNING"))]
  }

  function DerivedAll(kind: Kind, rows: Rows): Rows {
    map k | k in rows :: if rows[k].Rec? then Rec(Derived(kind, rows[k].fields)) else rows[k]
  }

  /** A record whose derivation raised: what comes before the fault is written. */
  function Interrupted(kind: Kind, fields: Fields): Fields {
    match kind
    case Service =>
      if "state" in fields then fields["running" := Bool(Get(fields, "state") == Str("RUNNING"))] else fields
    case Machine =>
      var memory := MemoryOf(Get(fields, "memory"));
      if memory.Some? then fields["memory" := Int(Round(memory.value))] else fields
    case _ => fields
  }

  function Processed(kind: Kind, fields: Fields): Fields {
    if Raises(kind, fields) then Interrupted(kind, fields) else Derived(kind, fields)
  }

  /** The derivation loop's body; `ok` is false where it raises. */
  method DeriveOne(record: Record, kind: Kind) returns (ok: bool)
    modifies record
    ensures ok == !Raises(kind, old(record.fields)) && record.fields == Processed(kind, old(record.fields))
  {
    ok := true;
    match kind {
      case Scrub =>
      case Service => ok := DeriveService(record);
      case Interface =>
        record.fields := record.fields["link_up" := Bool(Get(record.fields, "link_state") == Str("LINK_STATE_UP"))];
      case Machine => ok := DeriveMachine(record);
    }
  }

  method DeriveService(record: Record) returns (ok: bool)
    modifies record
    ensures ok == !Raises(Service, old(record.fields)) && record.fields == Processed(Service, old(record.fields))
  {
    if "state" !in record.fields {
      return false;
    }
    record.fields := record.fields["running" := Bool(record.fields["state"] == Str("RUNNING"))];
    var name := Get(record.fields, "name");
    if Falsy(name) || name == Str("unknown") {
      var service := Get(record.fields, "service");
      if KeyOf(service).None? {
        return false;
      }
      name := if service.Str? && service.s in DISPLAY_NAMES then Str(DISPLAY_NAMES[service.s])
              else if "service" in record.fields then service else Str("unknown");
    }
    record.fields := record.fields["display_name" := name];
    return true;
  }

  method DeriveMachine(record: Record) returns (ok: bool)
    modifies record
    ensures ok == !Raises(Machine, old(record.fields)) && record.fields == Processed(Machine, old(record.fields))
  {
    var memory := MemoryOf(Get(record.fields, "memory"));
    if memory.None? {
      return false;
    }
    record.fields := record.fields["memory" := Int(Round(memory.value))];
    if "status" !in record.fields {
      return false;
    }
    record.fields := record.fields["running" := Bool(record.fields["status"] == Str("RUNNING"))];
    return true;
  }

  /** The records while the loop runs: those of `todo` are still as they were. */
  ghost function PartlyDerived(kind: Kind, raw: Rows, todo: set<Key>): Rows {
    map k | k in raw :: if k in todo || !raw[k].Rec? then raw[k] else Rec(Derived(kind, raw[k].fields))
  }

  lemma LoopStep(kind: Kind, raw: Rows, todo: set<Key>, k: Key)
    requires k in todo && k in raw && raw[k].Rec? && NoneRaised(kind, raw, todo)
    ensures PartlyDerived(kind, raw, todo)[k] == raw[k]
    ensures if Raises(kind, raw[k].fields) then !NoneRaises(kind, raw) else NoneRaised(kind, raw, todo - {k})
    ensures !Raises(kind, raw[k].fields) ==>
              PartlyDerived(kind, raw, todo)[k := Rec(Processed(kind, raw[k].fields))]
              == PartlyDerived(kind, raw, todo - {k})
  {}

  /** None of the records no longer in `todo` raised. */
  ghost predicate NoneRaised(kind: Kind, raw: Rows, todo: set<Key>) {
    forall k :: k in raw && k !in todo ==> raw[k].Rec? && !Raises(kind, raw[k].fields)
  }

  lemma LoopEnds(kind: Kind, raw: Rows)
    ensures PartlyDerived(kind, raw, raw.Keys) == raw && PartlyDerived(kind, raw, {}) == DerivedAll(kind, raw)
    ensures NoneRaised(kind, raw, raw.Keys) && NoneRaised(kind, raw, {}) == NoneRaises(kind, raw)
  {}

  /** The loop has done all records but those of `todo`, and none raised. */
  ghost predicate Deriving(data: Endpoint, kind: Kind, raw: Rows, todo: set<Key>)
    reads data, data.repr
  {
    data.Valid() && todo <= raw.Keys && data.rows == PartlyDerived(kind, raw, todo) && NoneRaised(kind, raw, todo)
  }

  /** One turn of the loop; `k` is the record it takes. */
  method DeriveNext(data: Endpoint, kind: Kind, ghost raw: Rows, todo: set<Key>) returns (ok: bool, k: Key)
    requires AllRecords(raw) && todo != {} && Deriving(data, kind, raw, todo)
    modifies data`rows, data.repr
    ensures k in todo
    ensures if ok then Deriving(data, kind, raw, todo - {k})
            else data.Valid() && data.rows.Keys == raw.Keys && !NoneRaises(kind, raw)
  {
    k :| k in todo;
    assert raw[k].Rec?;
    LoopStep(kind, raw, todo, k);
    assert data.Holds(k);
    ok := DeriveAt(data, kind, k);
  }

  method DeriveAt(data: Endpoint, kind: Kind, k: Key) returns (ok: bool)
    requires data.Valid() && k in data.slots && data.slots[k].Ref?
    modifies data`rows, data.repr
    ensures data.Valid() && old(data.rows)[k].Rec? && ok == !Raises(kind, old(data.rows)[k].fields)
    ensures data.rows == old(data.rows)[k := Rec(Processed(kind, old(data.rows)[k].fields))]
  {
    assert data.Holds(k);
    ok := DeriveOne(data.slots[k].record, kind);
    data.Written(k);
  }

  /** The derivation loop, which stops where a record raises. */
  method Derive(data: Endpoint, kind: Kind) returns (ok: bool)
    requires data.Valid() && AllRecords(data.rows)
    modifies data`rows, data.repr
    ensures data.Valid() && data.rows.Keys == old(data.rows).Keys
    ensures ok <==> NoneRaises(kind, old(data.rows))
    ensures ok ==> data.rows == DerivedAll(kind, old(data.rows))
  {
    ok := true;
    var todo := data.slots.Keys;
    ghost var raw := data.rows;
    LoopEnds(kind, raw);
    while todo != {}
      invariant ok && Deriving(data, kind, raw, todo)
      decreases todo
    {
      var k;
      ok, k := DeriveNext(data, kind, raw, todo);
      if !ok {
        return false;
      }
      todo := todo - {k};
    }
  }

  predicate NoneRaises(kind: Kind, rows: Rows) {
    forall k :: k in rows ==> rows[k].Rec? && !Raises(kind, rows[k].fields)
  }

  // ---------------------------------------------------------------- one endpoint

  /** An endpoint's map, and whether its name is in `stale_endpoints`. */
  datatype Snapshot = Snapshot(rows: Rows, stale: bool)

  /** A refresh with its answer, or live readings (`get_systemstats` writes an interface's rx and tx). */
  datatype Input = Fetch(raw: Json) | Enrich(readings: map<Key, Fields>)

  /** The fields live readings may set. */
  function Live(kind: Kind): set<string> {
    if kind.Interface? then {"rx", "tx"} else {}
  }

  function Enriched(rows: Rows, readings: map<Key, Fields>): Rows {
    map k | k in rows :: if k in readings && rows[k].Rec? then Rec(rows[k].fields + readings[k]) else rows[k]
  }

  function After(kind: Kind, v: Snapshot, input: Input): Snapshot {
    match input
    case Fetch(raw) => Snapshot(DerivedAll(kind, Parsed(v.rows, raw, ConfigOf(kind))), !Usable(raw, ConfigOf(kind)))
    case Enrich(readings) => v.(rows := Enriched(v.rows, readings))
  }

  /** Whether `input` is possible and runs to its end. */
  predicate Completes(kind: Kind, v: Snapshot, input: Input) {
    match input
    case Fetch(raw) => NoneRaises(kind, Parsed(v.rows, raw, ConfigOf(kind)))
    case Enrich(readings) => forall k :: k in readings ==> readings[k].Keys <= Live(kind)
  }

  class Cache {
    const kind: Kind
    var data: Endpoint
    var stale: bool

    constructor (kind: Kind)
      ensures Valid() && View() == Snapshot(map[], false) && this.kind == kind
    {
      this.kind := kind;
      data := new Endpoint();
      stale := false;
    }

    ghost predicate Valid()
      reads this, data, data.repr
    {
      data.Valid() && AllRecords(data.rows)
    }

    ghost function View(): Snapshot
      reads this, data
    {
      Snapshot(data.rows, stale)
    }

    /** `get_scrub`, `get_service`, `get_interface`, `get_vm`, which work on the published records
        themselves; `ok` is false where it raises. */
    method Refresh(raw: Json) returns (ok: bool)
      requires Valid()
      modifies this, data, data.repr
      ensures data.Valid() && (ok <==> Completes(kind, old(View()), Fetch(raw)))
      ensures ok ==> View() == After(kind, old(View()), Fetch(raw))
    {
      stale := !Usable(raw, ConfigOf(kind));
      ok, data := ParseAndDerive(data, raw, kind);
    }

    /** `_refresh_interface_throughput`, given the readings. */
    method SetReadings(readings: map<Key, Fields>)
      requires Valid()
      modifies data`rows, data.repr
      ensures data.Valid() && View() == After(kind, old(View()), Enrich(readings))
    {
      var todo := readings.Keys;
      while todo != {}
        invariant todo <= readings.Keys && data.Valid() && data.rows == Enriched(old(data.rows), readings - todo)
        decreases todo
      {
        var k :| k in todo;
        SetNext(old(data.rows), readings, todo, k);
        todo := todo - {k};
      }
      assert readings - {} == readings;
    }

    /** The loop's body. */
    method SetNext(ghost raw: Rows, readings: map<Key, Fields>, ghost todo: set<Key>, k: Key)
      requires data.Valid() && AllRecords(raw) && data.rows == Enriched(raw, readings - todo)
      requires k in todo && k in readings
      modifies data`rows, data.repr
      ensures data.Valid() && data.rows == Enriched(raw, readings - (todo - {k}))
    {
      ReadingStep(raw, readings, todo, k);
      if k in data.slots {
        assert data.Holds(k);
        SetReading(data.slots[k].record, readings[k]);
        data.Written(k);
      }
    }
  }

  method ParseAndDerive(data: Endpoint, raw: Json, kind: Kind) returns (ok: bool, result: Endpoint)
    requires data.Valid() && AllRecords(data.rows)
    modifies data, data.repr
    ensures result.Valid() && ok == NoneRaises(kind, Parsed(old(data.rows), raw, ConfigOf(kind)))
    ensures ok ==> result.rows == DerivedAll(kind, Parsed(old(data.rows), raw, ConfigOf(kind)))
  {
    ParsedOk(data.rows, raw, ConfigOf(kind));
    result := ParseApi(data, raw, ConfigOf(kind));
    ok := Derive(result, kind);
  }

  /** `record.update(reading)` */
  method SetReading(record: Record, reading: Fields)
    modifies record
    ensures record.fields == old(record.fields) + reading
  {
    record.fields := record.fields + reading;
  }

  lemma ReadingStep(raw: Rows, readings: map<Key, Fields>, todo: set<Key>, k: Key)
    requires k in todo && k in readings && AllRecords(raw)
    ensures Enriched(raw, readings - (todo - {k}))
         == if k !in raw then Enriched(raw, readings - todo)
            else Enriched(raw, readings - todo)[k := Rec(raw[k].fields + readings[k])]
    ensures k in raw ==> Enriched(raw, readings - todo)[k] == raw[k]
  {}

  // ---------------------------------------------------------------- whole runs

  function Run(kind: Kind, inputs: seq<Input>): Snapshot {
    if inputs == [] then Snapshot(map[], false)
    else After(kind, Run(kind, inputs[..|inputs| - 1]), inputs[|inputs| - 1])
  }

  predicate Complete(kind: Kind, inputs: seq<Input>) {
    forall i :: 0 <= i < |inputs| ==> Completes(kind, Run(kind, inputs[..i]), inputs[i])
  }

  /** Deriving fields a second time changes nothing, other than for virtual machines. */
  lemma DerivedIdempotent(kind: Kind, fields: Fields)
    requires !kind.Machine?
    ensures Derived(kind, Derived(kind, fields)) == Derived(kind, fields)
  {
    var once := Derived(kind, fields);
    assert Get(once, "state") == Get(fields, "state") && Get(once, "link_state") == Get(fields, "link_state");
    assert Get(once, "name") == Get(fields, "name") && Get(once, "service") == Get(fields, "service");
  }

  /** Every record has its derived fields, and they are up to date. */
  predicate Settled(kind: Kind, rows: Rows) {
    forall k :: k in rows ==> rows[k].Rec? && Derived(kind, rows[k].fields) == rows[k].fields
  }

  lemma SettledAfter(kind: Kind, v: Snapshot, input: Input)
    requires !kind.Machine? && Settled(kind, v.rows) && Completes(kind, v, input)
    ensures Settled(kind, After(kind, v, input).rows)
  {
    var rows := After(kind, v, input).rows;
    forall k | k in rows
      ensures rows[k].Rec? && Derived(kind, rows[k].fields) == rows[k].fields
    {
      match input {
        case Fetch(raw) => DerivedIdempotent(kind, Parsed(v.rows, raw, ConfigOf(kind))[k].fields);
        case Enrich(readings) =>
          if k in readings {
            LiveIsApart(kind, v.rows[k].fields, readings[k]);
          }
      }
    }
  }

  lemma LiveIsApart(kind: Kind, fields: Fields, reading: Fields)
    requires reading.Keys <= Live(kind) && Derived(kind, fields) == fields
    ensures Derived(kind, fields + reading) == fields + reading
  {
    if kind.Interface? {
      assert "link_up" in fields;
      assert Get(fields + reading, "link_state") == Get(fields, "link_state");
    } else {
      assert reading == map[];
      assert fields + reading == fields;
    }
  }

  lemma {:induction false} RunSettled(kind: Kind, inputs: seq<Input>)
    requires !kind.Machine? && Complete(kind, inputs)
    ensures Settled(kind, Run(kind, inputs).rows)
  {
    if inputs != [] {
      CompleteFront(kind, inputs);
      RunSettled(kind, inputs[..|inputs| - 1]);
      SettledAfter(kind, Run(kind, inputs[..|inputs| - 1]), inputs[|inputs| - 1]);
    }
  }

  lemma CompleteFront(kind: Kind, inputs: seq<Input>)
    requires Complete(kind, inputs) && inputs != []
    ensures Complete(kind, inputs[..|inputs| - 1])
    ensures Completes(kind, Run(kind, inputs[..|inputs| - 1]), inputs[|inputs| - 1])
  {
    var front := inputs[..|inputs| - 1];
    forall i | 0 <= i < |front|
      ensures front[..i] == inputs[..i] && front[i] == inputs[i]
    {}
    assert front == inputs[..|inputs| - 1];
  }

  /** Input `i` is the last answer. */
  predicate LastFetch(inputs: seq<Input>, i: int) {
    0 <= i < |inputs| && inputs[i].Fetch? && forall j :: i < j < |inputs| ==> inputs[j].Enrich?
  }

  /** An endpoint is stale exactly when its last answer was unusable. */
  lemma {:induction false} StaleIffUnusable(kind: Kind, inputs: seq<Input>)
    ensures Run(kind, inputs).stale <==> exists i :: LastFetch(inputs, i) && !Usable(inputs[i].raw, ConfigOf(kind))
  {
    if inputs != [] {
      var (n, front) := (|inputs| - 1, inputs[..|inputs| - 1]);
      StaleIffUnusable(kind, front);
      if inputs[n].Fetch? {
        assert LastFetch(inputs, n);
      } else {
        forall i
          ensures LastFetch(inputs, i) <==> LastFetch(front, i)
        {
          if LastFetch(front, i) {
            forall j | i < j < |inputs|
              ensures inputs[j].Enrich?
            {
              assert j < n ==> inputs[j] == front[j];
            }
          }
        }
      }
    }
  }

  /** The records without their live readings. */
  function Bare(kind: Kind, rows: Rows): map<Key, Fields> {
    map k | k in rows && rows[k].Rec? :: rows[k].fields - Live(kind)
  }

  /** While an endpoint is stale its records are the last fresh ones, live readings aside. */
  lemma {:induction false} StaleIsLastFresh(kind: Kind, inputs: seq<Input>, i: nat)
    requires !kind.Machine? && i <= |inputs| && Complete(kind, inputs)
    requires forall j :: i <= j < |inputs| && inputs[j].Fetch? ==> !Usable(inputs[j].raw, ConfigOf(kind))
    ensures Run(kind, inputs).rows.Keys == Run(kind, inputs[..i]).rows.Keys
    ensures Bare(kind, Run(kind, inputs).rows) == Bare(kind, Run(kind, inputs[..i]).rows)
  {
    if i == |inputs| {
      assert inputs[..i] == inputs;
    } else {
      var (n, front) := (|inputs| - 1, inputs[..|inputs| - 1]);
      CompleteFront(kind, inputs);
      assert front[..i] == inputs[..i];
      StaleIsLastFresh(kind, front, i);
      LastKeeps(kind, inputs);
    }
  }

  lemma LastKeeps(kind: Kind, inputs: seq<Input>)
    requires !kind.Machine? && inputs != [] && Complete(kind, inputs)
    requires var last := inputs[|inputs| - 1]; last.Fetch? ==> !Usable(last.raw, ConfigOf(kind))
    ensures var front := inputs[..|inputs| - 1];
            && Run(kind, inputs).rows.Keys == Run(kind, front).rows.Keys
            && Bare(kind, Run(kind, inputs).rows) == Bare(kind, Run(kind, front).rows)
  {
    var front := inputs[..|inputs| - 1];
    CompleteFront(kind, inputs);
    RunSettled(kind, front);
    UnusableKeeps(kind, Run(kind, front), inputs[|inputs| - 1]);
  }

  lemma UnusableKeeps(kind: Kind, v: Snapshot, input: Input)
    requires Settled(kind, v.rows) && Completes(kind, v, input)
    requires input.Fetch? ==> !Usable(input.raw, ConfigOf(kind))
    ensures After(kind, v, input).rows.Keys == v.rows.Keys
    ensures Bare(kind, After(kind, v, input).rows) == Bare(kind, v.rows)
  {
    match input
    case Fetch(raw) =>
      UsableAgrees(v.rows, raw, ConfigOf(kind));
      DerivedSettled(kind, v.rows);
    case Enrich(readings) => EnrichedIsBare(kind, v.rows, readings);
  }

  lemma DerivedSettled(kind: Kind, rows: Rows)
    requires Settled(kind, rows)
    ensures DerivedAll(kind, rows) == rows
  {}

  lemma EnrichedIsBare(kind: Kind, rows: Rows, readings: map<Key, Fields>)
    requires AllRecords(rows) && forall k :: k in readings ==> readings[k].Keys <= Live(kind)
    ensures Bare(kind, Enriched(rows, readings)) == Bare(kind, rows)
  {
    forall k | k in rows && k in readings
      ensures (rows[k].fields + readings[k]) - Live(kind) == rows[k].fields - Live(kind)
    {
      LiveOnly(rows[k].fields, readings[k], Live(kind));
    }
  }

  lemma LiveOnly(fields: Fields, reading: Fields, live: set<string>)
    requires reading.Keys <= live
    ensures (fields + reading) - live == fields - live
  {}

  /** After a usable answer the endpoint is fresh, and has exactly the answer's records, each made
      from the last entry with its uid. */
  lemma FreshIsTheAnswer(kind: Kind, v: Snapshot, raw: Json)
    requires Usable(raw, ConfigOf(kind))
    ensures var (cfg, v') := (ConfigOf(kind), After(kind, v, Fetch(raw)));
            && !v'.stale
            && v'.rows.Keys == Uids(raw, cfg)
            && forall k :: k in v'.rows ==>
                 var last := Last(Entries(raw).value, cfg, k);
                 last.Some? && v'.rows[k] == Rec(Derived(kind, Applied(Base(v.rows, k), last.value, cfg)))
  {
    UsableAgrees(v.rows, raw, ConfigOf(kind));
    UsableRecords(v.rows, raw, ConfigOf(kind));
  }

  // ---------------------------------------------------------------- refreshes that raise

  /** Every record has the field its derivation looks up. */
  predicate HasState(kind: Kind, rows: Rows) {
    StateField(kind).Some? ==> forall k :: k in rows ==> rows[k].Rec? && StateField(kind).value in rows[k].fields
  }

  lemma StateIsMapped(kind: Kind, entry: Fields)
    requires StateField(kind).Some?
    ensures StateField(kind).value in Mapped(entry, Vals(kind))
  {
    var i := if kind.Service? then 4 else 7;
    assert Vals(kind)[i].name == StateField(kind).value;
  }

  lemma StateIsKept(kind: Kind, rows: Rows, raw: Json)
    requires HasState(kind, rows)
    ensures HasState(kind, Parsed(rows, raw, ConfigOf(kind)))
  {
    var cfg := ConfigOf(kind);
    if StateField(kind).Some? && Entries(raw).Some? {
      forall k | k in Written(Entries(raw).value, cfg)
        ensures Last(Entries(raw).value, cfg, k).Some?
        ensures StateField(kind).value in Mapped(Last(Entries(raw).value, cfg, k).value, cfg.vals)
      {
        WrittenIffLast(Entries(raw).value, cfg, k);
        StateIsMapped(kind, Last(Entries(raw).value, cfg, k).value);
      }
    }
  }

  lemma {:induction false} RunHasState(kind: Kind, inputs: seq<Input>)
    ensures HasState(kind, Run(kind, inputs).rows)
  {
    if inputs != [] {
      RunHasState(kind, inputs[..|inputs| - 1]);
      match inputs[|inputs| - 1] {
        case Fetch(raw) => StateIsKept(kind, Run(kind, inputs[..|inputs| - 1]).rows, raw);
        case Enrich(_) =>
      }
    }
  }

  lemma {:induction false} RunRecords(kind: Kind, inputs: seq<Input>)
    ensures AllRecords(Run(kind, inputs).rows)
  {
    if inputs != [] {
      RunRecords(kind, inputs[..|inputs| - 1]);
      match inputs[|inputs| - 1] {
        case Fetch(raw) => ParsedOk(Run(kind, inputs[..|inputs| - 1]).rows, raw, ConfigOf(kind));
        case Enrich(_) =>
      }
    }
  }

  /** A refresh raises exactly if some service has neither a name nor an id that can be looked up, or
      some virtual machine a memory reading that is not a number. */
  lemma OnlyUnreadableRaise(kind: Kind, inputs: seq<Input>, raw: Json)
    ensures var rows := Parsed(Run(kind, inputs).rows, raw, ConfigOf(kind));
            !Completes(kind, Run(kind, inputs), Fetch(raw)) <==> exists k :: k in rows && IsUnreadable(kind, rows[k])
  {
    RunHasState(kind, inputs);
    RunRecords(kind, inputs);
    ParsedOk(Run(kind, inputs).rows, raw, ConfigOf(kind));
    StateIsKept(kind, Run(kind, inputs).rows, raw);
  }

  predicate IsUnreadable(kind: Kind, cell: Cell) {
    cell.Rec? && Unreadable(kind, cell.fields)
  }

  // ---------------------------------------------------------------- virtual machines

  /** Every record has been through `get_vm`'s loop. */
  predicate Rescaled(rows: Rows) {
    forall k :: k in rows ==>
      && rows[k].Rec? && Get(rows[k].fields, "memory").Int?
      && "running" in rows[k].fields
      && rows[k].fields["running"] == Bool(Get(rows[k].fields, "status") == Str("RUNNING"))
  }

  lemma {:induction false} MachinesRescaled(inputs: seq<Input>)
    requires Complete(Machine, inputs)
    ensures Rescaled(Run(Machine, inputs).rows)
  {
    if inputs != [] {
      var (front, last) := (inputs[..|inputs| - 1], inputs[|inputs| - 1]);
      CompleteFront(Machine, inputs);
      MachinesRescaled(front);
      match last {
        case Fetch(raw) => DerivedRescaled(Parsed(Run(Machine, front).rows, raw, ConfigOf(Machine)));
        case Enrich(readings) => NoReadings(Run(Machine, front).rows, readings);
      }
    }
  }

  lemma DerivedRescaled(rows: Rows)
    requires AllRecords(rows)
    ensures Rescaled(DerivedAll(Machine, rows))
  {}

  lemma NoReadings(rows: Rows, readings: map<Key, Fields>)
    requires forall k :: k in readings ==> readings[k].Keys <= Live(Machine)
    ensures Enriched(rows, readings) == rows
  {
    forall k | k in rows && k in readings && rows[k].Rec?
      ensures rows[k].fields + readings[k] == rows[k].fields
    {
      assert readings[k] == map[];
    }
  }

  /** Rounding a whole number's 1024th part gives the number back only for zero. */
  lemma RoundedPart(n: int)
    ensures Round(n as real / 1024.0) == n <==> n == 0
  {
    var r := n as real / 1024.0;
    assert -0.5 <= Round(r) as real - r <= 0.5;
  }

  /** Once `vm` is stale its records do not stay the last fresh ones: every refresh with an unusable
      answer divides the published memory readings again. They survive exactly if all are zero. */
  lemma StaleMachinesDrift(inputs: seq<Input>, raw: Json)
    requires Complete(Machine, inputs) && !Usable(raw, ConfigOf(Machine))
    requires Completes(Machine, Run(Machine, inputs), Fetch(raw))
    ensures var (v, v') := (Run(Machine, inputs), Run(Machine, inputs + [Fetch(raw)]));
            && v'.stale && v'.rows.Keys == v.rows.Keys
            && forall k :: k in v.rows ==>
                 (v'.rows[k] == v.rows[k] <==> v.rows[k].Rec? && Get(v.rows[k].fields, "memory") == Int(0))
  {
    var v := Run(Machine, inputs);
    assert (inputs + [Fetch(raw)])[..|inputs|] == inputs;
    MachinesRescaled(inputs);
    UsableAgrees(v.rows, raw, ConfigOf(Machine));
    forall k | k in v.rows
      ensures Derived(Machine, v.rows[k].fields) == v.rows[k].fields <==> Get(v.rows[k].fields, "memory") == Int(0)
    {
      MachineDrifts(v.rows[k].fields);
    }
  }

  lemma MachineDrifts(fields: Fields)
    requires Get(fields, "memory").Int? && !Raises(Machine, fields)
    requires "running" in fields && fields["running"] == Bool(Get(fields, "status") == Str("RUNNING"))
    ensures Derived(Machine, fields) == fields <==> Get(fields, "memory") == Int(0)
  {
    var n := Get(fields, "memory").n;
    RoundedPart(n);
    assert "memory" in fields && fields["memory"] == Int(n);
    assert Derived(Machine, fields)["memory"] == Int(Round(n as real / 1024.0));
    if n == 0 {
      assert Derived(Machine, fields) == fields;
    }
  }

  lemma RunTwo(kind: Kind, first: Input, second: Input)
    ensures Run(kind, [first]) == After(kind, Snapshot(map[], false), first)
    ensures Run(kind, [first, second]) == After(kind, Run(kind, [first]), second)
  {
    assert [first][..0] == [] && [first, second][..1] == [first];
  }

  lemma EightGibibytesRounded()
    ensures Round(8589934592 as real / 1024.0) == 8388608 && Round(8388608 as real / 1024.0) == 8192
  {}

  /** Such a run: an answer with a machine of 8 GiB, and then one that is unusable. */
  lemma EightGibibytes(machine: Fields)
    requires "id" in machine && machine["id"] == Int(1) && "memory" in machine && machine["memory"] == Int(8589934592)
    ensures MemoryIs(Run(Machine, [Fetch(List([Obj(machine)]))]), Number(1.0), 8388608)
    ensures MemoryIs(Run(Machine, [Fetch(List([Obj(machine)])), Fetch(Null)]), Number(1.0), 8192)
  {
    var (first, second) := (Fetch(List([Obj(machine)])), Fetch(Null));
    RunTwo(Machine, first, second);
    EightGibibytesFetched(machine);
    EightGibibytesAgain(Run(Machine, [first]), Number(1.0));
  }

  lemma EightGibibytesFetched(machine: Fields)
    requires "id" in machine && machine["id"] == Int(1) && "memory" in machine && machine["memory"] == Int(8589934592)
    ensures MemoryIs(After(Machine, Snapshot(map[], false), Fetch(List([Obj(machine)]))), Number(1.0), 8388608)
  {
    EightGibibytesRounded();
    MemoryFetched(machine, 8589934592);
  }

  lemma EightGibibytesAgain(v: Snapshot, k: Key)
    requires MemoryIs(v, k, 8388608)
    ensures MemoryIs(After(Machine, v, Fetch(Null)), k, 8192)
  {
    EightGibibytesRounded();
    MemoryAgain(v, k, 8388608);
  }

  predicate MemoryIs(v: Snapshot, k: Key, memory: int) {
    k in v.rows && v.rows[k].Rec? && Get(v.rows[k].fields, "memory") == Int(memory)
  }

  lemma MemoryFetched(machine: Fields, memory: int)
    requires "id" in machine && machine["id"] == Int(1) && "memory" in machine && machine["memory"] == Int(memory)
    requires 0 <= memory < 0x1_0000_0000_0000_0000
    ensures MemoryIs(After(Machine, Snapshot(map[], false), Fetch(List([Obj(machine)]))), Number(1.0),
                     Round(memory as real / 1024.0))
  {
    OneEntry(machine, ConfigOf(Machine), Number(1.0));
    MemoryMapped(machine, memory);
    MemoryApplied(machine, memory);
    DerivedMemory(Applied(map[], machine, ConfigOf(Machine)), memory);
  }

  lemma MemoryMapped(machine: Fields, memory: int)
    requires "memory" in machine && machine["memory"] == Int(memory)
    ensures "memory" in Mapped(machine, Vals(Machine)) && Mapped(machine, Vals(Machine))["memory"] == Int(memory)
  {
    MappedByLastSpec(machine, Vals(Machine), 4);
    MemoryValue(machine, memory);
  }

  lemma MemoryValue(machine: Fields, memory: int)
    requires "memory" in machine && machine["memory"] == Int(memory)
    ensures FieldValue(machine, Plain("memory", Int(0))) == Int(memory)
  {
    assert "memory" + "" == "memory";
    Text.FindAt("memory", '/', "");
    assert "memory"[..6] == "memory";
  }

  lemma MemoryApplied(machine: Fields, memory: int)
    requires "memory" in Mapped(machine, Vals(Machine)) && Mapped(machine, Vals(Machine))["memory"] == Int(memory)
    ensures Get(Applied(map[], machine, ConfigOf(Machine)), "memory") == Int(memory)
  {}

  lemma DerivedMemory(fields: Fields, memory: int)
    requires Get(fields, "memory") == Int(memory) && 0 <= memory < 0x1_0000_0000_0000_0000
    ensures Get(Derived(Machine, fields), "memory") == Int(Round(memory as real / 1024.0))
  {}

  lemma MemoryAgain(v: Snapshot, k: Key, memory: int)
    requires MemoryIs(v, k, memory) && 0 <= memory < 0x1_0000_0000_0000_0000
    ensures MemoryIs(After(Machine, v, Fetch(Null)), k, Round(memory as real / 1024.0))
  {
    DerivedMemory(v.rows[k].fields, memory);
  }
}
