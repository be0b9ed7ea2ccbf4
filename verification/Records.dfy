/** What `get_scrub`, `get_service`, `get_interface` and `get_vm` publish, told from the raw entries. */
module Records {
  import opened Wire
  import opened Text
  import opened Json
  import opened Normalize
  import opened Mapping
  import opened Values
  import E = Endpoints

  // ---------------------------------------------------------------- a record and its raw entry

  /** The text `text` is what one finds in the entry along `path`. */
  predicate Says(entry: Fields, path: seq<string>, text: string) {
    Found(Obj(entry), path, Str(text))
  }

  /** The answer lists the record `k` last in `items[n]`. */
  predicate Lists(items: seq<Json>, n: nat, k: Key) {
    n < |items| && HasUid(items[n], "id", k) && forall m :: n < m < |items| ==> !HasUid(items[m], "id", k)
  }

  /** The record of `k` as published after that answer. */
  function Published(kind: E.Kind, v: E.Snapshot, items: seq<Json>, k: Key): Fields {
    Base(E.After(kind, v, E.Fetch(List(items))).rows, k)
  }

  /** The same record before its derived fields are set. */
  function RawOf(kind: E.Kind, v: E.Snapshot, items: seq<Json>, k: Key): Fields {
    Base(Parsed(v.rows, List(items), E.ConfigOf(kind)), k)
  }

  lemma PublishedRaw(kind: E.Kind, v: E.Snapshot, items: seq<Json>, n: nat, k: Key, i: nat, spec: Spec)
    requires Lists(items, n, k) && Gives(E.Vals(kind), i) && E.Vals(kind)[i] == spec
    ensures Published(kind, v, items, k) == E.Derived(kind, RawOf(kind, v, items, k))
    ensures Get(RawOf(kind, v, items, k), spec.name) == FieldValue(items[n].fields, spec)
  {
    PublishedField(v.rows, items, n, E.ConfigOf(kind), k, i);
    DerivedRecord(kind, Parsed(v.rows, List(items), E.ConfigOf(kind)), k);
  }

  lemma DerivedRecord(kind: E.Kind, rows: Rows, k: Key)
    requires k in rows && rows[k].Rec?
    ensures k in E.DerivedAll(kind, rows) && Base(E.DerivedAll(kind, rows), k) == E.Derived(kind, rows[k].fields)
  {}

  /** A short text is published exactly if the entry says it, unless it is the default. */
  lemma TextIsSaid(entry: Fields, spec: Spec, path: seq<string>, text: string)
    requires spec.kind.Value? && spec.convert == Same && IsPath(spec.source, path)
    requires |text| < 255 && spec.kind.default != Str(text)
    ensures FieldValue(entry, spec) == Str(text) <==> Says(entry, path, text)
  {
    PlainValue(entry, spec, path);
    ResolveFinds(Obj(entry), spec.source, path);
  }

  lemma Single(key: string)
    requires '/' !in key
    ensures IsPath(key, [key])
  {}

  lemma Double(outer: string, inner: string)
    requires '/' !in outer && '/' !in inner
    ensures IsPath(outer + "/" + inner, [outer, inner])
  {
    assert [outer, inner][1..] == [inner] && outer + ['/'] + inner == outer + "/" + inner;
  }

  /** A refresh that ends normally: with an answer the endpoint is fresh and has exactly the records of the
      answer, and otherwise it is stale and has those it had. */
  lemma RecordsAre(kind: E.Kind, v: E.Snapshot, raw: Json, k: Key)
    ensures var v' := E.After(kind, v, E.Fetch(raw));
            && (v'.stale <==> !IsAnswer(raw, "id"))
            && (k in v'.rows <==> if IsAnswer(raw, "id") then HasEntry(raw, "id", k) else k in v.rows)
  {
    var cfg := E.ConfigOf(kind);
    UsableIff(raw, cfg);
    UidsAreEntries(raw, cfg, k);
    UsableAgrees(v.rows, raw, cfg);
    if Usable(raw, cfg) {
      E.FreshIsTheAnswer(kind, v, raw);
    }
  }

  /** In every run: the endpoint is stale exactly if the last refresh was given no answer. */
  lemma IsStale(kind: E.Kind, inputs: seq<E.Input>, i: nat)
    requires E.LastFetch(inputs, i)
    ensures E.Run(kind, inputs).stale <==> !IsAnswer(inputs[i].raw, "id")
  {
    E.StaleIffUnusable(kind, inputs);
    UsableIff(inputs[i].raw, E.ConfigOf(kind));
    forall j | E.LastFetch(inputs, j)
      ensures i == j
    {}
  }

  // ---------------------------------------------------------------- the four endpoints

  /** A scrub task is published as enabled exactly if its entry says so. */
  lemma ScrubEnabled(v: E.Snapshot, items: seq<Json>, n: nat, k: Key)
    requires Lists(items, n, k)
    ensures exists b :: FlagFrom(items[n].fields, ["enabled"], false, false, b)
                        && Get(Published(E.Scrub, v, items, k), "enabled") == Bool(b)
  {
    assert Gives(E.Vals(E.Scrub), 2);
    PublishedRaw(E.Scrub, v, items, n, k, 2, Switch("enabled"));
    Single("enabled");
    var b := FlagValue(items[n].fields, Switch("enabled"), ["enabled"]);
  }

  /** A service is running exactly if its entry has the state "RUNNING". */
  lemma ServiceRuns(v: E.Snapshot, items: seq<Json>, n: nat, k: Key)
    requires Lists(items, n, k)
    ensures Get(Published(E.Service, v, items, k), "running") == Bool(Says(items[n].fields, ["state"], "RUNNING"))
  {
    assert Gives(E.Vals(E.Service), 4);
    PublishedRaw(E.Service, v, items, n, k, 4, Plain("state", Str("unknown")));
    Single("state");
    TextIsSaid(items[n].fields, Plain("state", Str("unknown")), ["state"], "RUNNING");
    ServiceDerived(RawOf(E.Service, v, items, k));
  }

  lemma ServiceDerived(raw: Fields)
    ensures Get(E.Derived(E.Service, raw), "running") == Bool(Get(raw, "state") == Str("RUNNING"))
  {}

  /** A service is shown under its own name, if it has one. */
  lemma ServiceNamed(v: E.Snapshot, items: seq<Json>, n: nat, k: Key, name: string)
    requires Lists(items, n, k) && Says(items[n].fields, ["name"], name)
    requires |name| < 255 && name != "" && name != "unknown"
    ensures Get(Published(E.Service, v, items, k), "display_name") == Str(name)
  {
    RawName(v, items, n, k);
    Single("name");
    TextIsSaid(items[n].fields, Plain("name", Str("")), ["name"], name);
    Named(RawOf(E.Service, v, items, k), name);
  }

  lemma Named(raw: Fields, name: string)
    requires Get(raw, "name") == Str(name) && name != "" && name != "unknown"
    ensures Get(E.Derived(E.Service, raw), "display_name") == Str(name)
  {}

  lemma ServiceNames()
    ensures Gives(E.Vals(E.Service), 1) && Gives(E.Vals(E.Service), 2)
  {
    assert |"service"| == 7 && |"name"| == 4 && |"enable"| == 6 && |"state"| == 5;
    assert "pids"[0] == 'p' && "name"[0] == 'n';
  }

  predicate IsNoName(j: Json) { j == Null || j == Str("") || j == Str("unknown") }

  function Label(service: string): string {
    if service in E.DISPLAY_NAMES then E.DISPLAY_NAMES[service] else service
  }

  lemma KnownServices()
    ensures Label("cifs") == "SMB" && Label("ssh") == "SSH" && Label("nfs") == "NFS" && Label("ups") == "UPS"
  {}

  /** Otherwise under the name known for its id, or the id itself. */
  lemma ServiceUnnamed(v: E.Snapshot, items: seq<Json>, n: nat, k: Key, service: string)
    requires Lists(items, n, k) && Says(items[n].fields, ["service"], service)
    requires |service| < 255 && service != "unknown"
    requires IsNoName(Get(items[n].fields, "name"))
    ensures Get(Published(E.Service, v, items, k), "display_name") == Str(Label(service))
  {
    RawName(v, items, n, k);
    RawService(v, items, n, k);
    IsCalled(items[n].fields, service);
    NoName(items[n].fields, Plain("name", Str("")));
    Unnamed(RawOf(E.Service, v, items, k), service);
  }

  lemma IsCalled(entry: Fields, service: string)
    requires Says(entry, ["service"], service) && |service| < 255 && service != "unknown"
    ensures FieldValue(entry, Plain("service", Str("unknown"))) == Str(service)
  {
    Single("service");
    TextIsSaid(entry, Plain("service", Str("unknown")), ["service"], service);
  }

  lemma RawName(v: E.Snapshot, items: seq<Json>, n: nat, k: Key)
    requires Lists(items, n, k)
    ensures Published(E.Service, v, items, k) == E.Derived(E.Service, RawOf(E.Service, v, items, k))
    ensures Get(RawOf(E.Service, v, items, k), "name") == FieldValue(items[n].fields, Plain("name", Str("")))
  {
    ServiceNames();
    PublishedRaw(E.Service, v, items, n, k, 2, Plain("name", Str("")));
  }

  lemma RawService(v: E.Snapshot, items: seq<Json>, n: nat, k: Key)
    requires Lists(items, n, k)
    ensures Get(RawOf(E.Service, v, items, k), "service")
         == FieldValue(items[n].fields, Plain("service", Str("unknown")))
  {
    ServiceNames();
    PublishedRaw(E.Service, v, items, n, k, 1, Plain("service", Str("unknown")));
  }

  lemma Unnamed(raw: Fields, service: string)
    requires IsNoName(Get(raw, "name")) && Get(raw, "service") == Str(service)
    ensures Get(E.Derived(E.Service, raw), "display_name") == Str(Label(service))
  {}

  lemma NoName(entry: Fields, spec: Spec)
    requires spec == Plain("name", Str(""))
    requires IsNoName(Get(entry, "name"))
    ensures IsNoName(FieldValue(entry, spec))
  {
    Single("name");
    PlainValue(entry, spec, ["name"]);
    ResolveFinds(Obj(entry), "name", ["name"]);
    if "name" in entry {
      assert Found(Obj(entry), ["name"], entry["name"]);
    }
  }

  /** A link is up exactly if the interface's state says "LINK_STATE_UP". */
  lemma LinkIsUp(v: E.Snapshot, items: seq<Json>, n: nat, k: Key)
    requires Lists(items, n, k)
    ensures Get(Published(E.Interface, v, items, k), "link_up")
         == Bool(Says(items[n].fields, ["state", "link_state"], "LINK_STATE_UP"))
  {
    LinkSpec();
    PublishedRaw(E.Interface, v, items, n, k, 4, E.Nested("link_state"));
    TextIsSaid(items[n].fields, E.Nested("link_state"), ["state", "link_state"], "LINK_STATE_UP");
    LinkDerived(RawOf(E.Interface, v, items, k));
  }

  lemma LinkSpec()
    ensures Gives(E.Vals(E.Interface), 4) && E.Vals(E.Interface)[4] == E.Nested("link_state")
    ensures IsPath(E.Nested("link_state").source, ["state", "link_state"])
  {
    Double("state", "link_state");
    var vals := E.Vals(E.Interface);
    assert |vals[4].name| == 10 && |vals[5].name| == 17 && |vals[6].name| == 20 && |vals[7].name| == 12;
    assert "state/" == "state" + "/";
  }

  lemma LinkDerived(raw: Fields)
    ensures Get(E.Derived(E.Interface, raw), "link_up") == Bool(Get(raw, "link_state") == Str("LINK_STATE_UP"))
  {}

  /** A virtual machine is running exactly if its status says "RUNNING". */
  lemma MachineRuns(v: E.Snapshot, items: seq<Json>, n: nat, k: Key)
    requires Lists(items, n, k)
    ensures Get(Published(E.Machine, v, items, k), "running")
         == Bool(Says(items[n].fields, ["status", "state"], "RUNNING"))
  {
    StatusSpec();
    PublishedRaw(E.Machine, v, items, n, k, 7, Status());
    TextIsSaid(items[n].fields, Status(), ["status", "state"], "RUNNING");
    MachineDerived(RawOf(E.Machine, v, items, k));
  }

  function Status(): Spec { Spec("status", "status/state", Value(Str("unknown")), Same) }

  lemma StatusSpec()
    ensures Gives(E.Vals(E.Machine), 7) && E.Vals(E.Machine)[7] == Status()
    ensures IsPath(Status().source, ["status", "state"])
  {
    Double("status", "state");
    assert "status/state" == "status" + "/" + "state";
  }

  lemma MachineDerived(raw: Fields)
    ensures Get(E.Derived(E.Machine, raw), "running") == Bool(Get(raw, "status") == Str("RUNNING"))
  {}

  /** Its memory is the 1024th part of what the entry says, to the nearest whole number. */
  lemma MachineMemory(v: E.Snapshot, items: seq<Json>, n: nat, k: Key, memory: int)
    requires Lists(items, n, k) && Found(Obj(items[n].fields), ["memory"], Int(memory))
    requires -0x1_0000_0000_0000_0000 < memory < 0x1_0000_0000_0000_0000
    ensures var published := Get(Published(E.Machine, v, items, k), "memory");
            published.Int? && -512 <= 1024 * published.n - memory <= 512
  {
    var vals := E.Vals(E.Machine);
    assert vals[5].name[0] == 'a' && vals[6].name[0] == 'i' && vals[7].name[0] == 's';
    PublishedRaw(E.Machine, v, items, n, k, 4, Plain("memory", Int(0)));
    Single("memory");
    PlainValue(items[n].fields, Plain("memory", Int(0)), ["memory"]);
    MemoryRounded(RawOf(E.Machine, v, items, k), memory);
  }

  lemma MemoryRounded(fields: Fields, memory: int)
    requires Get(fields, "memory") == Int(memory) && -0x1_0000_0000_0000_0000 < memory < 0x1_0000_0000_0000_0000
    ensures var published := Get(E.Derived(E.Machine, fields), "memory");
            published.Int? && -512 <= 1024 * published.n - memory <= 512
  {
    var r := memory as real / 1024.0;
    assert -0.5 <= E.Round(r) as real - r <= 0.5;
  }

  // ---------------------------------------------------------------- records that make a refresh raise

  /** A value that Python cannot divide by 1024 and round. */
  predicate IsNoNumber(j: Json) {
    || j.Str? || j.List? || j.Obj? || j.NaN? || j.Infinite?
    || (j.Int? && !(-1024 * FLOAT_LIMIT < j.n < 1024 * FLOAT_LIMIT))
  }

  /** A value that Python counts as false, or the text "unknown". */
  predicate IsNothing(j: Json) {
    || j == Null || j == Bool(false) || j == Int(0) || j == Float(0.0) || j == Str("") || j == Str("unknown")
    || j == List([]) || j == Obj(map[])
  }

  /** A service that has no name and no id that could be looked up, or a machine whose memory is no number. */
  predicate ReadsWrong(kind: E.Kind, cell: Cell) {
    && cell.Rec?
    && match kind
       case Service =>
         IsNothing(Get(cell.fields, "name")) && (Get(cell.fields, "service").List? || Get(cell.fields, "service").Obj?)
       case Machine => IsNoNumber(Get(cell.fields, "memory"))
       case _ => false
  }

  lemma ReadsWrongIff(kind: E.Kind, cell: Cell)
    ensures E.IsUnreadable(kind, cell) <==> ReadsWrong(kind, cell)
  {}

  /** After any run: a refresh raises exactly if such a record is there once it is parsed. */
  lemma RaisesExactly(kind: E.Kind, inputs: seq<E.Input>, raw: Json)
    ensures var rows := Parsed(E.Run(kind, inputs).rows, raw, E.ConfigOf(kind));
            (!E.Completes(kind, E.Run(kind, inputs), E.Fetch(raw)) <==>
               exists k :: k in rows && ReadsWrong(kind, rows[k]))
  {
    E.OnlyUnreadableRaise(kind, inputs, raw);
    var rows := Parsed(E.Run(kind, inputs).rows, raw, E.ConfigOf(kind));
    forall k | k in rows
      ensures E.IsUnreadable(kind, rows[k]) <==> ReadsWrong(kind, rows[k])
    {
      ReadsWrongIff(kind, rows[k]);
    }
  }
}
