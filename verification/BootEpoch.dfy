/** `get_systeminfo` and the boot time it derives, damped against jitter. Numbers are exact. */
module BootEpoch {
  import opened Wire
  import opened Json
  import opened Normalize
  import opened Mapping
  import opened Values

  const TOLERANCE := 300

  /** The spec tables of `system.info`. */
  datatype Tables = Tables(vals: seq<Spec>, ensureVals: seq<Spec>)

  /** The answer gives the uptime, but never the epoch. */
  predicate Fits(t: Tables) {
    && (forall i :: 0 <= i < |t.vals| ==> t.vals[i].name != "uptimeEpoch")
    && (exists i :: 0 <= i < |t.vals| && t.vals[i].name == "uptime_seconds")
  }

  const SYSTEM_INFO := Tables(
    [Plain("version", Str("unknown")), Plain("hostname", Str("unknown")), Plain("uptime_seconds", Int(0)),
     Plain("system_serial", Str("unknown")), Plain("system_product", Str("unknown")),
     Plain("system_manufacturer", Str("unknown")), Plain("physmem", Int(0))],
    [Plain("uptimeEpoch", Int(0)), Plain("cpu_temperature", Null), Plain("cpu_usage", Float(0.0)),
     Plain("load_shortterm", Float(0.0)), Plain("load_midterm", Float(0.0)), Plain("load_longterm", Float(0.0)),
     Plain("cache_size-arc_value", Float(0.0)), Plain("memory-free_value", Float(0.0)),
     Plain("memory-total_value", Float(0.0)), Plain("memory-usage_percent", Int(0))])

  lemma SystemInfoFits()
    ensures Fits(SYSTEM_INFO)
  {
    assert SYSTEM_INFO.vals[2].name == "uptime_seconds";
  }

  /** The epoch a finite uptime gives. */
  function Computed(uptime: real, now: int): int {
    Truncate(now as real - uptime)
  }

  function Abs(r: real): real {
    if r < 0.0 then -r else r
  }

  /** The previous epoch, where it is a finite number. */
  function Previous(j: Json): real {
    match j
    case Int(n) => n as real
    case Float(r) => r
    case Bool(b) => if b then 1.0 else 0.0
    case _ => 0.0
  }

  /** `_stable_uptime_epoch`; `None` where converting the previous epoch raises. */
  function StableUptimeEpoch(previous: Json, uptime: Json, now: int): Option<int> {
    var before := Previous(previous);
    if Finite(uptime).None? then
      if previous.NaN? || previous.Infinite? then None else Some(Truncate(before))
    else
      var epoch := Computed(Finite(uptime).value, now);
      if previous.NaN? then None
      else if previous.Infinite? || Abs(epoch as real - before) > TOLERANCE as real then Some(epoch)
      else Some(Truncate(before))
  }

  /** Whatever was published before, the result is within the tolerance of the epoch just computed. */
  lemma StableIsClose(previous: Json, uptime: Json, now: int)
    requires Finite(uptime).Some? && !previous.NaN?
    ensures var (epoch, stable) := (Computed(Finite(uptime).value, now), StableUptimeEpoch(previous, uptime, now));
            stable.Some? && -TOLERANCE <= stable.value - epoch <= TOLERANCE
  {}

  // ---------------------------------------------------------------- get_systeminfo

  datatype Input = Refresh(raw: Json, now: int) | Enrich(readings: Fields)

  /** A keyless `parse_api` on a dictionary. */
  function ParsedInfo(info: Fields, raw: Fields, t: Tables): Fields {
    Defaults(t.ensureVals) + (info + Mapped(raw, t.vals))
  }

  function WithMemory(info: Fields): Fields {
    var physmem := Get(info, "physmem");
    if Finite(physmem).Some? && Finite(physmem).value > 0.0 then info["memory-total_value" := physmem] else info
  }

  /** Whether an uptime takes part: a number, not a boolean, not negative. */
  predicate IsUptime(j: Json) {
    match j
    case Int(n) => n >= 0
    case Float(r) => r >= 0.0
    case Infinite(negative) => !negative
    case _ => false
  }

  function WithEpoch(info: Fields, now: int): Fields {
    var uptime := Get(info, "uptime_seconds");
    var epoch := StableUptimeEpoch(Get(info, "uptimeEpoch"), uptime, now);
    if IsUptime(uptime) && epoch.Some? then info["uptimeEpoch" := Int(epoch.value)] else info
  }

  /** One `get_systeminfo`, or `get_systemstats` writing its readings. */
  function After(info: Fields, input: Input, t: Tables): Fields {
    match input
    case Refresh(raw, now) =>
      if !raw.Obj? || raw.fields == map[] then info else WithEpoch(WithMemory(ParsedInfo(info, raw.fields, t)), now)
    case Enrich(readings) => info + readings
  }

  class SystemInfo {
    const tables: Tables
    const info: Record

    constructor (tables: Tables, fields: Fields)
      ensures this.tables == tables && info.fields == fields && fresh(info)
    {
      this.tables := tables;
      info := new Record(fields);
    }

    /** `get_systeminfo`, given the answer and the clock. */
    method GetSystemInfo(raw: Json, now: int)
      modifies info
      ensures info.fields == After(old(info.fields), Refresh(raw, now), tables)
    {
      if !raw.Obj? || raw.fields == map[] {
        return;
      }
      info.FillVals(raw.fields, tables.vals);
      info.FillEnsureVals(tables.ensureVals);
      var physmem := Get(info.fields, "physmem");
      if Finite(physmem).Some? && Finite(physmem).value > 0.0 {
        info.fields := info.fields["memory-total_value" := physmem];
      }
      var uptime := Get(info.fields, "uptime_seconds");
      if IsUptime(uptime) {
        var epoch := StableUptimeEpoch(Get(info.fields, "uptimeEpoch"), uptime, now);
        if epoch.Some? {
          info.fields := info.fields["uptimeEpoch" := Int(epoch.value)];
        }
      }
    }
  }

  // ---------------------------------------------------------------- whole runs

  function Run(info: Fields, inputs: seq<Input>, t: Tables): Fields {
    if inputs == [] then info else After(Run(info, inputs[..|inputs| - 1], t), inputs[|inputs| - 1], t)
  }

  /** `get_systemstats` does not write the epoch. */
  predicate Allowed(input: Input) {
    input.Enrich? ==> "uptimeEpoch" !in input.readings
  }

  /** The epoch a refresh computes, if it reads a finite uptime. */
  function ComputedBy(input: Input, t: Tables): Option<int> {
    if input.Enrich? || !input.raw.Obj? || input.raw.fields == map[] then None
    else ComputedFrom(Get(Mapped(input.raw.fields, t.vals), "uptime_seconds"), input.now)
  }

  function ComputedFrom(uptime: Json, now: int): Option<int> {
    if IsUptime(uptime) && Finite(uptime).Some? then Some(Computed(Finite(uptime).value, now)) else None
  }

  /** The published epoch. */
  function Epoch(info: Fields): Option<int> {
    var epoch := Get(info, "uptimeEpoch");
    if epoch.Int? then Some(epoch.n) else None
  }

  /** The keyless parse keeps the published epoch, and takes the uptime from the answer. */
  lemma ParseKeepsEpoch(info: Fields, raw: Fields, t: Tables)
    requires Fits(t) && "uptimeEpoch" in info
    ensures Get(WithMemory(ParsedInfo(info, raw, t)), "uptimeEpoch") == info["uptimeEpoch"]
    ensures Get(WithMemory(ParsedInfo(info, raw, t)), "uptime_seconds") == Get(Mapped(raw, t.vals), "uptime_seconds")
  {
    assert "uptimeEpoch" !in Mapped(raw, t.vals);
    assert "uptime_seconds" in Mapped(raw, t.vals);
  }

  /** The published epoch after one step: it stays if no epoch is computed or the computed one is
      within the tolerance, and otherwise is replaced. */
  function NextEpoch(epoch: int, computed: Option<int>): int {
    if computed.Some? && (computed.value - epoch > TOLERANCE || epoch - computed.value > TOLERANCE) then computed.value
    else epoch
  }

  lemma EpochStep(info: Fields, input: Input, t: Tables)
    requires Fits(t) && Epoch(info).Some? && Allowed(input)
    ensures Epoch(After(info, input, t)) == Some(NextEpoch(Epoch(info).value, ComputedBy(input, t)))
  {
    if input.Refresh? && input.raw.Obj? && input.raw.fields != map[] {
      ParseKeepsEpoch(info, input.raw.fields, t);
      WholeStable(Epoch(info).value, Get(Mapped(input.raw.fields, t.vals), "uptime_seconds"), input.now);
    }
  }

  lemma WholeStable(epoch: int, uptime: Json, now: int)
    ensures StableUptimeEpoch(Int(epoch), uptime, now)
         == Some(NextEpoch(epoch, if Finite(uptime).Some? then Some(Computed(Finite(uptime).value, now)) else None))
  {}

  lemma {:induction false} EpochIsWhole(info: Fields, inputs: seq<Input>, t: Tables)
    requires Fits(t) && Epoch(info).Some? && forall input :: input in inputs ==> Allowed(input)
    ensures Epoch(Run(info, inputs, t)).Some?
  {
    if inputs != [] {
      EpochIsWhole(info, inputs[..|inputs| - 1], t);
      EpochStep(Run(info, inputs[..|inputs| - 1], t), inputs[|inputs| - 1], t);
    }
  }

  /** In every run: a refresh with a finite uptime leaves the published epoch within the tolerance of
      the one it computed. */
  lemma EpochIsClose(info: Fields, inputs: seq<Input>, t: Tables)
    requires Fits(t) && Epoch(info).Some? && forall input :: input in inputs ==> Allowed(input)
    requires inputs != [] && ComputedBy(inputs[|inputs| - 1], t).Some?
    ensures var (published, computed) := (Epoch(Run(info, inputs, t)), ComputedBy(inputs[|inputs| - 1], t).value);
            published.Some? && -TOLERANCE <= published.value - computed <= TOLERANCE
  {
    EpochIsWhole(info, inputs[..|inputs| - 1], t);
    EpochStep(Run(info, inputs[..|inputs| - 1], t), inputs[|inputs| - 1], t);
  }

  /** How often the published epoch changes in a run. */
  function Changes(info: Fields, inputs: seq<Input>, t: Tables): nat {
    if inputs == [] then 0
    else
      var front := inputs[..|inputs| - 1];
      Changes(info, front, t) + if Epoch(Run(info, front, t)) == Epoch(Run(info, inputs, t)) then 0 else 1
  }

  /** In a run whose computed epochs span no more than the tolerance, the published epoch changes at
      most once, however far off it was at first. */
  lemma {:induction false} ChangesAtMostOnce(info: Fields, inputs: seq<Input>, low: int, t: Tables)
    requires Fits(t) && Epoch(info).Some? && forall input :: input in inputs ==> Allowed(input)
    requires forall input :: input in inputs && ComputedBy(input, t).Some? ==>
               low <= ComputedBy(input, t).value <= low + TOLERANCE
    ensures Changes(info, inputs, t) <= 1
    ensures var published := Epoch(Run(info, inputs, t));
            published.Some? && (Changes(info, inputs, t) == 1 ==> low <= published.value <= low + TOLERANCE)
  {
    if inputs != [] {
      var (front, last) := (inputs[..|inputs| - 1], inputs[|inputs| - 1]);
      ChangesAtMostOnce(info, front, low, t);
      EpochStep(Run(info, front, t), last, t);
      assert last in inputs;
    }
  }

  // ---------------------------------------------------------------- in terms of the answers

  /** The uptime is taken from the field of that name in the answer, as it is. */
  ghost predicate ReadsUptime(t: Tables) {
    exists i: nat :: Gives(t.vals, i) && t.vals[i] == Plain("uptime_seconds", Int(0))
  }

  lemma SystemInfoReadsUptime()
    ensures ReadsUptime(SYSTEM_INFO)
  {
    var vals := SYSTEM_INFO.vals;
    assert vals[2] == Plain("uptime_seconds", Int(0));
    assert |vals[3].name| == 13 && |vals[4].name| == 14 && |vals[5].name| == 19 && |vals[6].name| == 7;
    assert "system_serial"[0] == 's' && "system_product"[0] == 's';
    assert Gives(vals, 2);
  }

  /** The answer of `input` says at the time `now` that the system has been up for `u` seconds, so that
      it was started at `now - u`. */
  ghost predicate Reports(input: Input, u: real) {
    && input.Refresh? && input.raw.Obj? && u >= 0.0
    && "uptime_seconds" in input.raw.fields && Finite(input.raw.fields["uptime_seconds"]) == Some(u)
  }

  /** What is a number: an integer that a float can hold, and a broken number that is neither infinite nor
      NaN, but no boolean and no text. */
  lemma NumberIsFinite(j: Json, u: real)
    ensures Finite(j) == Some(u) <==> (j.Int? && j.n as real == u && -FLOAT_LIMIT < j.n < FLOAT_LIMIT) || j == Float(u)
  {}

  /** The uptime field after the parse: as in the answer, other than a long text, and 0 if it was not there. */
  lemma UptimeIsRead(raw: Fields, t: Tables)
    requires ReadsUptime(t)
    ensures var uptime := Get(Mapped(raw, t.vals), "uptime_seconds");
            if "uptime_seconds" !in raw then uptime == Int(0)
            else if raw["uptime_seconds"].Str? then uptime.Str?
            else uptime == raw["uptime_seconds"]
  {
    var i: nat :| Gives(t.vals, i) && t.vals[i] == Plain("uptime_seconds", Int(0));
    MappedByLastSpec(raw, t.vals, i);
    FieldIsRead(raw, t.vals[i]);
  }

  lemma FieldIsRead(raw: Fields, spec: Spec)
    requires spec == Plain("uptime_seconds", Int(0))
    ensures if "uptime_seconds" !in raw then FieldValue(raw, spec) == Int(0)
            else if raw["uptime_seconds"].Str? then FieldValue(raw, spec).Str?
            else FieldValue(raw, spec) == raw["uptime_seconds"]
  {
    var path := ["uptime_seconds"];
    assert IsPath("uptime_seconds", path) && path[1..] == [];
    PlainValue(raw, spec, path);
    if "uptime_seconds" in raw {
      assert Found(raw["uptime_seconds"], [], raw["uptime_seconds"]);
      assert Found(Obj(raw), path, raw["uptime_seconds"]);
    } else {
      assert Missing(Obj(raw), path);
    }
  }

  /** What a refresh computes from the number in its answer. */
  function FromNumber(u: Option<real>, now: int): Option<int> {
    if u.Some? && u.value >= 0.0 then Some(Truncate(now as real - u.value)) else None
  }

  lemma ComputedFromNumber(j: Json, now: int)
    ensures ComputedFrom(j, now) == FromNumber(Finite(j), now)
    ensures j.Str? ==> Finite(j).None?
  {}

  lemma AnswerIsComputed(input: Input, t: Tables)
    requires ReadsUptime(t) && input.Refresh? && input.raw.Obj? && "uptime_seconds" in input.raw.fields
    ensures ComputedBy(input, t) == FromNumber(Finite(input.raw.fields["uptime_seconds"]), input.now)
  {
    UptimeIsRead(input.raw.fields, t);
    ComputedFromNumber(input.raw.fields["uptime_seconds"], input.now);
    ComputedFromNumber(Get(Mapped(input.raw.fields, t.vals), "uptime_seconds"), input.now);
  }

  /** The answer brings no uptime: it is there, but no number or negative. */
  ghost predicate ReportsNone(input: Input) {
    && input.Refresh? && input.raw.Obj? && "uptime_seconds" in input.raw.fields
    && forall u: real :: !Reports(input, u)
  }

  /** In every run: after a refresh that is told an uptime, the published boot time is within 301 seconds
      of the moment the system was started -- 300 for the damping, and less than one for the truncation. */
  lemma EpochIsBootTime(info: Fields, inputs: seq<Input>, t: Tables, u: real)
    requires Fits(t) && ReadsUptime(t) && Epoch(info).Some? && forall input :: input in inputs ==> Allowed(input)
    requires inputs != [] && Reports(inputs[|inputs| - 1], u)
    ensures var (published, started) := (Epoch(Run(info, inputs, t)), inputs[|inputs| - 1].now as real - u);
            published.Some? && -301.0 < published.value as real - started < 301.0
  {
    AnswerIsComputed(inputs[|inputs| - 1], t);
    EpochIsClose(info, inputs, t);
  }

  /** A refresh that is told something else leaves it alone. */
  lemma EpochStays(info: Fields, input: Input, t: Tables)
    requires Fits(t) && ReadsUptime(t) && Epoch(info).Some? && ReportsNone(input)
    ensures Epoch(After(info, input, t)) == Epoch(info)
  {
    EpochStep(info, input, t);
    AnswerIsComputed(input, t);
    var u := Finite(input.raw.fields["uptime_seconds"]);
    assert u.Some? ==> !Reports(input, u.value);
  }

  lemma TruncateSpan(low: real, x: real)
    requires low <= x <= low + 300.0
    ensures Truncate(low) <= Truncate(x) <= Truncate(low) + 300
  {}

  /** In a run whose answers put the start of the system within 300 seconds of each other, the published
      boot time changes at most once, however far off it was at first. */
  lemma StartedOnce(info: Fields, inputs: seq<Input>, low: real, t: Tables)
    requires Fits(t) && ReadsUptime(t) && Epoch(info).Some? && forall input :: input in inputs ==> Allowed(input)
    requires forall input, u :: input in inputs && Reports(input, u) ==> low <= input.now as real - u <= low + 300.0
    requires forall input :: input in inputs && input.Refresh? && input.raw.Obj? ==>
               "uptime_seconds" in input.raw.fields
    ensures Changes(info, inputs, t) <= 1
  {
    forall input | input in inputs && ComputedBy(input, t).Some?
      ensures Truncate(low) <= ComputedBy(input, t).value <= Truncate(low) + TOLERANCE
    {
      AnswerIsComputed(input, t);
      var u := Finite(input.raw.fields["uptime_seconds"]).value;
      assert Reports(input, u);
      TruncateSpan(low, input.now as real - u);
    }
    ChangesAtMostOnce(info, inputs, Truncate(low), t);
  }

  /** The other fields are as the answer gives them, and a positive "physmem" is the total memory. */
  lemma InfoIsTheAnswer(info: Fields, raw: Fields, now: int, t: Tables, i: nat)
    requires raw != map[] && Gives(t.vals, i) && t.vals[i].name !in ["uptimeEpoch", "memory-total_value"]
    ensures var p := After(info, Refresh(Obj(raw), now), t);
            && Get(p, t.vals[i].name) == FieldValue(raw, t.vals[i])
            && (var memory := Finite(Get(p, "physmem"));
                t.vals[i].name == "physmem" && memory.Some? && memory.value > 0.0 ==>
                  Get(p, "memory-total_value") == Get(p, "physmem"))
  {
    MappedByLastSpec(raw, t.vals, i);
    var name := t.vals[i].name;
    assert Get(ParsedInfo(info, raw, t), name) == FieldValue(raw, t.vals[i]);
    assert name != "physmem" ==> Get(WithMemory(ParsedInfo(info, raw, t)), name) == FieldValue(raw, t.vals[i]);
  }

  function Up(now: int, uptime: real): Input { Refresh(Obj(map["uptime_seconds" := Float(uptime)]), now) }

  /** No wider span will do, by however little: here the answers are 300 seconds and `excess` apart, and
      the boot time changes twice. */
  lemma WiderSpanChangesTwice(info: Fields, t: Tables, excess: real)
    requires Fits(t) && ReadsUptime(t) && Epoch(info) == Some(0) && 0.0 < excess <= 1.0
    ensures var inputs := [Up(1101, 100.0 + excess), Up(1401, 100.0)];
            && Reports(inputs[0], 100.0 + excess) && Reports(inputs[1], 100.0)
            && (1401 as real - 100.0) - (1101 as real - (100.0 + excess)) == 300.0 + excess
            && Changes(info, inputs, t) == 2
  {
    var (first, second) := (Up(1101, 100.0 + excess), Up(1401, 100.0));
    UpIsComputed(1101, 100.0 + excess, t);
    UpIsComputed(1401, 100.0, t);
    EpochStep(info, first, t);
    EpochStep(After(info, first, t), second, t);
    TwoStarts(excess);
    TwoChanges(info, first, second, t);
  }

  lemma TwoStarts(excess: real)
    requires 0.0 < excess <= 1.0
    ensures Truncate(1101 as real - (100.0 + excess)) == 1000 && Truncate(1401 as real - 100.0) == 1301
  {}

  lemma UpIsComputed(now: int, u: real, t: Tables)
    requires ReadsUptime(t) && u >= 0.0
    ensures Reports(Up(now, u), u) && Allowed(Up(now, u))
    ensures ComputedBy(Up(now, u), t) == Some(Truncate(now as real - u))
  {
    UpReports(now, u);
    AnswerIsComputed(Up(now, u), t);
  }

  lemma UpReports(now: int, u: real)
    requires u >= 0.0
    ensures var input := Up(now, u);
            && Reports(input, u) && Allowed(input) && input.now == now
            && FromNumber(Finite(input.raw.fields["uptime_seconds"]), now) == Some(Truncate(now as real - u))
  {}

  lemma TwoChanges(info: Fields, first: Input, second: Input, t: Tables)
    requires Epoch(info) != Epoch(After(info, first, t))
    requires Epoch(After(info, first, t)) != Epoch(After(After(info, first, t), second, t))
    ensures Changes(info, [first, second], t) == 2
  {
    assert [first, second][..1] == [first] && [first][..0] == [];
    assert Run(info, [], t) == info && Run(info, [first], t) == After(info, first, t);
    assert Changes(info, [], t) == 0 && Changes(info, [first], t) == 1;
  }
}
