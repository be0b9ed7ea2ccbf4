/** `get_ups`: readings of a UPS, one netdata graph each, and which of them are outdated. */
module Ups {
  import opened Wire
  import opened Json

  datatype Graph = Charge | Runtime | Load | Voltage | Current | Frequency | Temperature

  function NameOf(g: Graph): string {
    match g
    case Charge => "upscharge" case Runtime => "upsruntime" case Load => "upsload" case Voltage => "upsvoltage"
    case Current => "upscurrent" case Frequency => "upsfrequency" case Temperature => "upstemperature"
  }

  /** `_UPS_GRAPHS` */
  function FieldOf(g: Graph): string {
    match g
    case Charge => "battery_charge" case Runtime => "runtime_seconds" case Load => "load" case Voltage => "voltage"
    case Current => "current" case Frequency => "frequency" case Temperature => "temperature"
  }

  const GRAPHS: set<Graph> := {Charge, Runtime, Load, Voltage, Current, Frequency, Temperature}

  /** Each graph has a field of its own. */
  lemma FieldsAreDistinct(g: Graph, h: Graph)
    ensures FieldOf(g) == FieldOf(h) ==> g == h
    ensures g in GRAPHS
  {
    assert |FieldOf(g)| == |FieldOf(h)| ==> FieldOf(g)[0] == FieldOf(h)[0] ==> g == h;
  }

  type Snapshot = map<string, real>

  /** The value of a graph's field. */
  function Lookup(fields: Snapshot, g: Graph): Option<real> {
    if FieldOf(g) in fields then Some(fields[FieldOf(g)]) else None
  }

  /** Every field is some graph's. */
  ghost predicate OnlyFields(fields: Snapshot) {
    forall name :: name in fields ==> exists g: Graph :: FieldOf(g) == name
  }

  lemma SetField(fields: Snapshot, g: Graph, value: real)
    requires OnlyFields(fields)
    ensures OnlyFields(fields[FieldOf(g) := value])
    ensures forall h :: Lookup(fields[FieldOf(g) := value], h) == if h == g then Some(value) else Lookup(fields, h)
  {
    forall h
      ensures Lookup(fields[FieldOf(g) := value], h) == if h == g then Some(value) else Lookup(fields, h)
    {
      FieldsAreDistinct(h, g);
    }
  }

  lemma SameSnapshot(fields: Snapshot, fields': Snapshot)
    requires OnlyFields(fields) && OnlyFields(fields') && forall g :: Lookup(fields, g) == Lookup(fields', g)
    ensures fields == fields'
  {
    forall name | name in fields
      ensures name in fields' && fields[name] == fields'[name]
    {
      var g: Graph :| FieldOf(g) == name;
      assert Lookup(fields, g) == Lookup(fields', g);
    }
    forall name | name in fields'
      ensures name in fields
    {
      var g: Graph :| FieldOf(g) == name;
      assert Lookup(fields, g) == Lookup(fields', g);
    }
  }

  /** What the query of one graph gives: an answer, a `TrueNASError`, or another exception, which
      `get_ups` re-raises. */
  datatype Result = Payload(json: Json) | ServerError | OtherError

  /** How a result counts: a value, a recognisable but empty window, a failure, or a crash. */
  datatype Reading = Value(r: real) | EmptyWindow | Failed | Crashed

  predicate HasSeriesEntry(entry: Json) {
    entry.Obj? && (!Falsy(Get(entry.fields, "identifier")) || !Falsy(Get(entry.fields, "name")))
  }

  /** `mean` stands for `_ups_value`. */
  function Classify(result: Result, mean: Json -> Option<real>): Reading {
    match result
    case OtherError => Crashed
    case ServerError => Failed
    case Payload(json) =>
      if mean(json).Some? then Value(mean(json).value)
      else if json.List? && (json.items == [] || HasSeriesEntry(json.items[0])) then EmptyWindow
      else Failed
  }

  function Readings(results: Graph -> Result, mean: Json -> Option<real>): Graph -> Reading {
    g => Classify(results(g), mean)
  }

  /** What a call to `get_ups` is given. `order` is the order in which it walks the graphs found. */
  datatype Input =
    | NoAnswer
    | Discovered(graphs: Json, order: seq<Graph>, results: Graph -> Result, mean: Json -> Option<real>)
  {
    function Reading(g: Graph): Reading
      requires Discovered?
    {
      Classify(results(g), mean)
    }
  }

  datatype State = State(fields: Snapshot, failing: set<Graph>, discoveryFailing: bool, stale: set<Graph>)

  const INITIAL := State(map[], {}, false, {})

  /** Whether `g` is among the graphs the server lists. */
  predicate Lists(graphs: seq<Json>, g: Graph) {
    exists i :: 0 <= i < |graphs| && IsGraph(graphs[i], g)
  }

  predicate IsGraph(j: Json, g: Graph) {
    j.Obj? && Get(j.fields, "name") == Str(NameOf(g))
  }

  predicate Found(input: Input) {
    input.Discovered? && input.graphs.List?
  }

  /** The order is one of the graphs found, without repetition. */
  predicate Possible(input: Input) {
    Found(input) ==>
      && (forall g :: g in input.order <==> Lists(input.graphs.items, g))
      && (forall i, j :: 0 <= i < j < |input.order| ==> input.order[i] != input.order[j])
  }

  /** Whether the call runs to its end. */
  predicate Completes(input: Input) {
    Found(input) ==> forall g :: g in input.order ==> !input.Reading(g).Crashed?
  }

  /** `_all_cached_ups_graphs` */
  function AllCached(fields: Snapshot): set<Graph> {
    set g | g in GRAPHS && FieldOf(g) in fields
  }

  /** The graphs' failing keys after their results up to the first crash. */
  function Noted(failing: set<Graph>, order: seq<Graph>, readings: Graph -> Reading): set<Graph>
    decreases order
  {
    if order == [] then failing
    else
      match readings(order[0])
      case Crashed => failing
      case Failed => Noted(failing + {order[0]}, order[1..], readings)
      case _ => Noted(failing - {order[0]}, order[1..], readings)
  }

  /** A graph's next value, if it has one. */
  function Next(fields: Snapshot, g: Graph, reading: Reading): Option<real> {
    if reading.Value? then Some(reading.r) else Lookup(fields, g)
  }

  /** The next snapshot. */
  function Read(fields: Snapshot, order: seq<Graph>, readings: Graph -> Reading): Snapshot {
    map g | g in order && Next(fields, g, readings(g)).Some? :: FieldOf(g) := Next(fields, g, readings(g)).value
  }

  lemma ReadLookup(fields: Snapshot, order: seq<Graph>, readings: Graph -> Reading)
    ensures OnlyFields(Read(fields, order, readings))
    ensures forall g :: Lookup(Read(fields, order, readings), g)
                     == if g in order then Next(fields, g, readings(g)) else None
  {
    forall g, h: Graph
      ensures FieldOf(g) == FieldOf(h) ==> g == h
    {
      FieldsAreDistinct(g, h);
    }
  }

  function Outdated(fields: Snapshot, order: seq<Graph>, readings: Graph -> Reading): set<Graph> {
    set g | g in order && !readings(g).Value? && FieldOf(g) in fields
  }

  predicate IsUpsStale(s: State) {
    s.discoveryFailing || s.stale != {}
  }

  function After(s: State, input: Input): State {
    if !Found(input) then s.(discoveryFailing := true, stale := AllCached(s.fields))
    else
      var listed := set g | g in input.order;
      var failing := Noted(s.failing * listed, input.order, Readings(input.results, input.mean));
      if !Completes(input) then s.(failing := failing, discoveryFailing := false)
      else
        var readings := Readings(input.results, input.mean);
        State(Read(s.fields, input.order, readings), failing, false, Outdated(s.fields, input.order, readings))
  }

  // ---------------------------------------------------------------- in place

  /** `seeded` after the values of the graphs of `order`, none of them twice. */
  ghost predicate Overlaid(ups: Snapshot, outdated: set<Graph>, seeded: Snapshot, order: seq<Graph>,
                           values: map<Graph, Option<real>>)
    requires forall g :: g in order ==> g in values
  {
    && OnlyFields(ups)
    && (forall g :: Lookup(ups, g) == if g in order && values[g].Some? then values[g] else Lookup(seeded, g))
    && outdated == set g | g in order && values[g].None? && FieldOf(g) in seeded
  }

  lemma StillOverlaid(ups: Snapshot, outdated: set<Graph>, seeded: Snapshot, order: seq<Graph>,
                      values: map<Graph, Option<real>>, g: Graph)
    requires (forall g :: g in order ==> g in values) && Overlaid(ups, outdated, seeded, order, values)
    requires g !in order && g in values && values[g].None?
    ensures Overlaid(ups, if FieldOf(g) in ups then outdated + {g} else outdated, seeded, order + [g], values)
  {
    assert Lookup(ups, g) == Lookup(seeded, g);
  }

  lemma AlsoOverlaid(ups: Snapshot, outdated: set<Graph>, seeded: Snapshot, order: seq<Graph>,
                     values: map<Graph, Option<real>>, g: Graph)
    requires (forall g :: g in order ==> g in values) && Overlaid(ups, outdated, seeded, order, values)
    requires g !in order && g in values && values[g].Some?
    ensures Overlaid(ups[FieldOf(g) := values[g].value], outdated, seeded, order + [g], values)
  {
    SetField(ups, g, values[g].value);
  }

  class UpsState {
    var fields: Snapshot
    var failing: set<Graph>
    var discoveryFailing: bool
    var stale: set<Graph>

    constructor ()
      ensures View() == INITIAL
    {
      fields, failing, discoveryFailing, stale := map[], {}, false, {};
    }

    ghost function View(): State
      reads this
    {
      State(fields, failing, discoveryFailing, stale)
    }

    /** `_apply_ups_graph_result`; `crashed` is where it re-raises. */
    method ApplyResult(g: Graph, result: Result, mean: Json -> Option<real>)
        returns (value: Option<real>, crashed: bool)
      modifies this`failing
      ensures var reading := Classify(result, mean);
              && crashed == reading.Crashed?
              && value == (if reading.Value? then Some(reading.r) else None)
              && failing == match reading
                            case Crashed => old(failing)
                            case Failed => old(failing) + {g}
                            case _ => old(failing) - {g}
    {
      match result
      case ServerError =>
        failing := failing + {g};
        return None, false;
      case OtherError => return None, true;
      case Payload(json) =>
        value := mean(json);
        if value.None? && !(json.List? && (json.items == [] || HasSeriesEntry(json.items[0]))) {
          failing := failing + {g};
        } else {
          failing := failing - {g};
        }
        return value, false;
    }

    /** `_query_ups_graphs`; without `values` where it raises. */
    method QueryGraphs(order: seq<Graph>, results: Graph -> Result, mean: Json -> Option<real>)
        returns (values: Option<map<Graph, Option<real>>>)
      modifies this`failing
      ensures var readings := Readings(results, mean);
              && failing == Noted(old(failing), order, readings)
              && (values.Some? <==> forall g :: g in order ==> !readings(g).Crashed?)
              && (values.Some? ==>
                    values.value == map g | g in order :: if readings(g).Value? then Some(readings(g).r) else None)
    {
      ghost var readings := Readings(results, mean);
      var found: map<Graph, Option<real>> := map[];
      for i := 0 to |order|
        invariant found == map g | g in order[..i] :: if readings(g).Value? then Some(readings(g).r) else None
        invariant forall g :: g in order[..i] ==> !readings(g).Crashed?
        invariant Noted(old(failing), order, readings) == Noted(failing, order[i..], readings)
      {
        assert order[..i + 1] == order[..i] + [order[i]];
        assert order[i..][1..] == order[i + 1..];
        var value, crashed := ApplyResult(order[i], results(order[i]), mean);
        if crashed {
          return None;
        }
        found := found[order[i] := value];
      }
      assert order[..|order|] == order;
      return Some(found);
    }

    /** The previous values of the graphs found, in a new dictionary. */
    method Seed(order: seq<Graph>) returns (seeded: Snapshot)
      ensures OnlyFields(seeded)
      ensures forall g :: Lookup(seeded, g) == if g in order then Lookup(fields, g) else None
    {
      seeded := map[];
      for i := 0 to |order|
        invariant OnlyFields(seeded)
        invariant forall g :: Lookup(seeded, g) == if g in order[..i] then Lookup(fields, g) else None
      {
        assert order[..i + 1] == order[..i] + [order[i]];
        if FieldOf(order[i]) in fields {
          SetField(seeded, order[i], fields[FieldOf(order[i])]);
          seeded := seeded[FieldOf(order[i]) := fields[FieldOf(order[i])]];
        }
      }
      assert order[..|order|] == order;
    }

    /** The graphs' values over the seeded ones. */
    static method Overlay(seeded: Snapshot, order: seq<Graph>, values: map<Graph, Option<real>>)
        returns (ups: Snapshot, outdated: set<Graph>)
      requires OnlyFields(seeded) && forall g :: g in order ==> g in values
      requires forall i, j :: 0 <= i < j < |order| ==> order[i] != order[j]
      ensures OnlyFields(ups)
      ensures forall g :: Lookup(ups, g) == if g in order && values[g].Some? then values[g] else Lookup(seeded, g)
      ensures outdated == set g | g in order && values[g].None? && FieldOf(g) in seeded
    {
      ups, outdated := seeded, {};
      for i := 0 to |order|
        invariant Overlaid(ups, outdated, seeded, order[..i], values)
      {
        var g := order[i];
        assert order[..i + 1] == order[..i] + [g] && g !in order[..i];
        if values[g].None? {
          StillOverlaid(ups, outdated, seeded, order[..i], values, g);
          if FieldOf(g) in ups {
            outdated := outdated + {g};
          }
        } else {
          AlsoOverlaid(ups, outdated, seeded, order[..i], values, g);
          ups := ups[FieldOf(g) := values[g].value];
        }
      }
      assert order[..|order|] == order;
    }

    /** The part of `get_ups` after a discovery that found graphs. */
    method ReadGraphs(order: seq<Graph>, results: Graph -> Result, mean: Json -> Option<real>)
      requires forall i, j :: 0 <= i < j < |order| ==> order[i] != order[j]
      modifies this
      ensures discoveryFailing == old(discoveryFailing)
      ensures var readings := Readings(results, mean);
              && failing == Noted(old(failing), order, readings)
              && if forall g :: g in order ==> !readings(g).Crashed?
                 then fields == Read(old(fields), order, readings) && stale == Outdated(old(fields), order, readings)
                 else fields == old(fields) && stale == old(stale)
    {
      var seeded := Seed(order);
      var values := QueryGraphs(order, results, mean);
      if values.Some? {
        var next, outdated := Overlay(seeded, order, values.value);
        OverlayIsRead(fields, seeded, next, outdated, order, Readings(results, mean));
        fields, stale := next, outdated;
      }
    }

    /** `get_ups` */
    method GetUps(input: Input)
      requires Possible(input)
      modifies this
      ensures View() == After(old(View()), input)
    {
      if input.NoAnswer? || !input.graphs.List? {
        discoveryFailing := true;
        stale := set g | g in GRAPHS && FieldOf(g) in fields;
      } else {
        discoveryFailing := false;
        failing := failing * set g | g in input.order;
        if input.order == [] {
          fields, stale := map[], {};
        } else {
          ReadGraphs(input.order, input.results, input.mean);
        }
      }
    }
  }

  lemma OverlayIsRead(fields: Snapshot, seeded: Snapshot, ups: Snapshot, outdated: set<Graph>,
                      order: seq<Graph>, readings: Graph -> Reading)
    requires forall g :: Lookup(seeded, g) == if g in order then Lookup(fields, g) else None
    requires OnlyFields(ups)
    requires forall g :: Lookup(ups, g)
                      == if g in order && readings(g).Value? then Some(readings(g).r) else Lookup(seeded, g)
    requires outdated == set g | g in order && !readings(g).Value? && FieldOf(g) in seeded
    ensures ups == Read(fields, order, readings) && outdated == Outdated(fields, order, readings)
  {
    ReadLookup(fields, order, readings);
    forall g
      ensures Lookup(ups, g) == Lookup(Read(fields, order, readings), g)
    {}
    SameSnapshot(ups, Read(fields, order, readings));
    forall g | g in order
      ensures FieldOf(g) in seeded <==> FieldOf(g) in fields
    {
      assert Lookup(seeded, g) == Lookup(fields, g);
    }
  }

  // ---------------------------------------------------------------- whole runs

  function Run(inputs: seq<Input>): State {
    if inputs == [] then INITIAL else After(Run(inputs[..|inputs| - 1]), inputs[|inputs| - 1])
  }

  /** Call `i` discovered graphs and read them all. */
  predicate Refreshes(inputs: seq<Input>, i: int) {
    0 <= i < |inputs| && Found(inputs[i]) && Completes(inputs[i])
  }

  /** Call `i` got a value for `g`. */
  predicate ReadAt(inputs: seq<Input>, i: int, g: Graph) {
    Refreshes(inputs, i) && g in inputs[i].order && inputs[i].Reading(g).Value?
  }

  /** If this call reads graphs, it finds `g` but gets no value for it. */
  predicate Keeps(input: Input, g: Graph) {
    Found(input) && Completes(input) ==> g in input.order && !input.Reading(g).Value?
  }

  predicate KeptAfter(inputs: seq<Input>, i: int, g: Graph) {
    forall j :: 0 <= j < |inputs| && i < j ==> Keeps(inputs[j], g)
  }

  predicate IsLastReading(inputs: seq<Input>, i: int, g: Graph) {
    ReadAt(inputs, i, g) && KeptAfter(inputs, i, g)
  }

  lemma {:induction false} RunOnlyFields(inputs: seq<Input>)
    ensures OnlyFields(Run(inputs).fields)
  {
    if inputs != [] {
      var last := inputs[|inputs| - 1];
      RunOnlyFields(inputs[..|inputs| - 1]);
      if Found(last) && Completes(last) {
        ReadLookup(Run(inputs[..|inputs| - 1]).fields, last.order, Readings(last.results, last.mean));
      }
    }
  }

  lemma AfterLookup(s: State, input: Input, g: Graph)
    ensures Lookup(After(s, input).fields, g)
         == if !Found(input) || !Completes(input) then Lookup(s.fields, g)
            else if g in input.order then Next(s.fields, g, input.Reading(g)) else None
  {
    if Found(input) && Completes(input) {
      ReadLookup(s.fields, input.order, Readings(input.results, input.mean));
    }
  }

  lemma IsLastReadingSnoc(inputs: seq<Input>, i: int, g: Graph)
    requires inputs != []
    ensures var (n, front) := (|inputs| - 1, inputs[..|inputs| - 1]);
            IsLastReading(inputs, i, g) <==> if i < n then IsLastReading(front, i, g) && Keeps(inputs[n], g)
                                             else ReadAt(inputs, i, g)
  {
    var (n, front) := (|inputs| - 1, inputs[..|inputs| - 1]);
    if IsLastReading(front, i, g) && Keeps(inputs[n], g) {
      forall j | i < j < |inputs|
        ensures Keeps(inputs[j], g)
      {
        assert j < n ==> inputs[j] == front[j];
      }
    }
  }

  lemma FieldStep(inputs: seq<Input>, g: Graph)
    requires inputs != []
    ensures var (n, front) := (|inputs| - 1, inputs[..|inputs| - 1]);
            Lookup(Run(inputs).fields, g) == if ReadAt(inputs, n, g) then Some(inputs[n].Reading(g).r)
                                             else if Keeps(inputs[n], g) then Lookup(Run(front).fields, g)
                                             else None
  {
    AfterLookup(Run(inputs[..|inputs| - 1]), inputs[|inputs| - 1], g);
  }

  function LastReading(inputs: seq<Input>, g: Graph): (i: Option<int>)
    ensures i.Some? ==> ReadAt(inputs, i.value, g)
  {
    var n := |inputs| - 1;
    if inputs == [] then None
    else if ReadAt(inputs, n, g) then Some(n)
    else if Keeps(inputs[n], g) then LastReading(inputs[..n], g)
    else None
  }

  lemma {:induction false} LastReadingIs(inputs: seq<Input>, i: int, g: Graph)
    ensures IsLastReading(inputs, i, g) <==> LastReading(inputs, g) == Some(i)
  {
    if inputs != [] {
      LastReadingIs(inputs[..|inputs| - 1], i, g);
      IsLastReadingSnoc(inputs, i, g);
    }
  }

  lemma {:induction false} FieldIsRemembered(inputs: seq<Input>, g: Graph)
    ensures Lookup(Run(inputs).fields, g)
         == if LastReading(inputs, g).Some? then Some(inputs[LastReading(inputs, g).value].Reading(g).r) else None
  {
    if inputs != [] {
      FieldIsRemembered(inputs[..|inputs| - 1], g);
      FieldStep(inputs, g);
    }
  }

  /** Each published field is its graph's last usable reading since a successful discovery last
      dropped the graph, and there is a field exactly if there is such a reading. */
  lemma FieldIsLastReading(inputs: seq<Input>, g: Graph)
    ensures Lookup(Run(inputs).fields, g).Some? <==> exists i :: IsLastReading(inputs, i, g)
    ensures forall i :: IsLastReading(inputs, i, g) ==> Lookup(Run(inputs).fields, g) == Some(inputs[i].Reading(g).r)
  {
    FieldIsRemembered(inputs, g);
    forall i
      ensures IsLastReading(inputs, i, g) <==> LastReading(inputs, g) == Some(i)
    {
      LastReadingIs(inputs, i, g);
    }
    if LastReading(inputs, g).Some? {
      assert IsLastReading(inputs, LastReading(inputs, g).value, g);
    }
  }

  /** Call `i` is the last one that ran to its end. */
  predicate LastCompleted(inputs: seq<Input>, i: int) {
    0 <= i < |inputs| && Completes(inputs[i]) && forall j :: i < j < |inputs| ==> !Completes(inputs[j])
  }

  /** A graph is named outdated exactly if it has a field and the last call to run to its end got no
      value for it: every name has a field, and every field that is not named was just read. */
  lemma {:induction false} StaleGraphs(inputs: seq<Input>, g: Graph)
    ensures g in Run(inputs).stale
       <==> Lookup(Run(inputs).fields, g).Some? && !exists i :: LastCompleted(inputs, i) && ReadAt(inputs, i, g)
  {
    if inputs != [] {
      var (n, front) := (|inputs| - 1, inputs[..|inputs| - 1]);
      StaleGraphs(front, g);
      if Completes(inputs[n]) {
        StaleStep(Run(front), inputs[n], g);
        assert LastCompleted(inputs, n);
      } else {
        AfterLookup(Run(front), inputs[n], g);
        LastReadKept(inputs, g);
      }
    }
  }

  lemma LastReadKept(inputs: seq<Input>, g: Graph)
    requires inputs != [] && !Completes(inputs[|inputs| - 1])
    ensures var front := inputs[..|inputs| - 1];
            (exists i :: LastCompleted(inputs, i) && ReadAt(inputs, i, g))
            <==> (exists i :: LastCompleted(front, i) && ReadAt(front, i, g))
  {
    var (n, front) := (|inputs| - 1, inputs[..|inputs| - 1]);
    forall i
      ensures LastCompleted(inputs, i) <==> LastCompleted(front, i)
      ensures i < n ==> ReadAt(inputs, i, g) == ReadAt(front, i, g)
    {
      LastCompletedSnoc(inputs, i);
    }
  }

  lemma StaleStep(s: State, input: Input, g: Graph)
    requires Completes(input)
    ensures g in After(s, input).stale
       <==> Lookup(After(s, input).fields, g).Some? && !(Found(input) && g in input.order && input.Reading(g).Value?)
  {
    AfterLookup(s, input, g);
    FieldsAreDistinct(g, g);
  }

  lemma LastCompletedSnoc(inputs: seq<Input>, i: int)
    requires inputs != [] && !Completes(inputs[|inputs| - 1])
    ensures LastCompleted(inputs, i) <==> LastCompleted(inputs[..|inputs| - 1], i)
  {
    var (n, front) := (|inputs| - 1, inputs[..|inputs| - 1]);
    if LastCompleted(front, i) {
      forall j | i < j < |inputs|
        ensures !Completes(inputs[j])
      {
        assert j < n ==> inputs[j] == front[j];
      }
    }
  }

  /** While "ups" is not stale, the last call to run to its end read every published field. */
  lemma FreshMeansRead(inputs: seq<Input>, g: Graph)
    requires !IsUpsStale(Run(inputs)) && Lookup(Run(inputs).fields, g).Some?
    ensures exists i :: LastCompleted(inputs, i) && ReadAt(inputs, i, g)
                        && Lookup(Run(inputs).fields, g) == Some(inputs[i].Reading(g).r)
  {
    StaleGraphs(inputs, g);
    var i :| LastCompleted(inputs, i) && ReadAt(inputs, i, g);
    assert KeptAfter(inputs, i, g);
    assert IsLastReading(inputs, i, g);
    FieldIsLastReading(inputs, g);
  }

  /** What the results leave of the failing keys. */
  lemma {:induction false} NotedKeys(failing: set<Graph>, order: seq<Graph>, readings: Graph -> Reading)
    requires forall i, j :: 0 <= i < j < |order| ==> order[i] != order[j]
    ensures forall g :: g in Noted(failing, order, readings) && g !in order ==> g in failing
    ensures (forall g :: g in order ==> !readings(g).Crashed?) ==>
              forall g :: g in Noted(failing, order, readings)
                     <==> if g in order then readings(g).Failed? else g in failing
    decreases order
  {
    if order != [] {
      var g := order[0];
      assert order == [g] + order[1..];
      assert g !in order[1..];
      match readings(g) {
        case Crashed =>
        case Failed => NotedKeys(failing + {g}, order[1..], readings);
        case _ => NotedKeys(failing - {g}, order[1..], readings);
      }
    }
  }

  /** Call `i` is the last one whose discovery succeeded. */
  predicate LastFound(inputs: seq<Input>, i: int) {
    0 <= i < |inputs| && Found(inputs[i]) && forall j :: i < j < |inputs| ==> !Found(inputs[j])
  }

  /** A failing key only exists for a graph of the last successful discovery, and if its results
      were all processed, exactly for those that failed. */
  lemma {:induction false} FailingKeys(inputs: seq<Input>, g: Graph)
    requires forall input :: input in inputs ==> Possible(input)
    ensures g in Run(inputs).failing ==> exists i :: LastFound(inputs, i) && Lists(inputs[i].graphs.items, g)
    ensures forall i :: LastFound(inputs, i) && Completes(inputs[i]) ==>
              (g in Run(inputs).failing <==> Lists(inputs[i].graphs.items, g) && inputs[i].Reading(g).Failed?)
  {
    if inputs != [] {
      var (n, front) := (|inputs| - 1, inputs[..|inputs| - 1]);
      FailingKeys(front, g);
      var last := inputs[n];
      assert Possible(last);
      if Found(last) {
        NotedKeys(Run(front).failing * (set h | h in last.order), last.order, Readings(last.results, last.mean));
        assert LastFound(inputs, n);
      } else {
        forall i
          ensures LastFound(inputs, i) <==> LastFound(front, i)
        {
          if LastFound(front, i) {
            forall j | i < j < |inputs|
              ensures !Found(inputs[j])
            {
              assert j < n ==> inputs[j] == front[j];
            }
          }
        }
      }
    }
  }

  // ---------------------------------------------------------------- in terms of the answers

  /** The name TrueNAS has for a UPS graph, and the field its value is published in. */
  predicate Publishes(graph: string, name: string) {
    || (graph == "upscharge" && name == "battery_charge")
    || (graph == "upsruntime" && name == "runtime_seconds")
    || (graph == "upsload" && name == "load")
    || (graph == "upsvoltage" && name == "voltage")
    || (graph == "upscurrent" && name == "current")
    || (graph == "upsfrequency" && name == "frequency")
    || (graph == "upstemperature" && name == "temperature")
  }

  /** The server lists a graph of this name. */
  predicate Listed(graphs: Json, graph: string) {
    graphs.List? && exists i :: 0 <= i < |graphs.items| && IsNamed(graphs.items[i], graph)
  }

  predicate IsNamed(j: Json, graph: string) {
    j.Obj? && "name" in j.fields && j.fields["name"] == Str(graph)
  }

  /** `name` has something in it: a text, a list or a dictionary that is not empty, a number but 0, or true. */
  predicate Filled(entry: Fields, name: string) {
    name in entry && match entry[name]
                     case Null => false
                     case Bool(b) => b
                     case Int(n) => n != 0
                     case Float(r) => r != 0.0
                     case Str(s) => |s| > 0
                     case List(items) => |items| > 0
                     case Obj(fields) => fields != map[]
                     case _ => true
  }

  /** The answer is about some series, or empty: it says that there is no reading yet. */
  predicate HasNoReadingYet(json: Json) {
    json.List? && (json.items == [] || (json.items[0].Obj? && (Filled(json.items[0].fields, "identifier")
                                                               || Filled(json.items[0].fields, "name"))))
  }

  lemma GraphOf(graph: string, name: string) returns (g: Graph)
    requires Publishes(graph, name)
    ensures NameOf(g) == graph && FieldOf(g) == name
  {
    match graph {
      case "upscharge" => g := Charge;
      case "upsruntime" => g := Runtime;
      case "upsload" => g := Load;
      case "upsvoltage" => g := Voltage;
      case "upscurrent" => g := Current;
      case "upsfrequency" => g := Frequency;
      case _ => g := Temperature;
    }
  }

  /** A call to `get_ups` that runs to its end: a graph that is listed and gives a value is published in
      its field, and is neither failing nor outdated. One that gives none keeps its previous value, if it
      has any, and is then outdated; it is failing exactly if its query failed or its answer made no sense.
      A graph that is not listed is dropped. */
  lemma GraphOutcome(s: State, input: Input, graph: string, name: string, g: Graph)
    requires Publishes(graph, name) && NameOf(g) == graph
    requires Found(input) && Possible(input) && Completes(input)
    ensures var s' := After(s, input);
            if !Listed(input.graphs, graph) then name !in s'.fields && g !in s'.failing && g !in s'.stale
            else match input.results(g)
              case Payload(json) =>
                if input.mean(json).Some?
                then && name in s'.fields && s'.fields[name] == input.mean(json).value
                     && g !in s'.failing && g !in s'.stale
                else KeptReading(s, s', name, g) && (g in s'.failing <==> !HasNoReadingYet(json))
              case ServerError => KeptReading(s, s', name, g) && g in s'.failing
              case OtherError => false
  {
    var h := GraphOf(graph, name);
    GraphsAreNamed(g, h);
    ListedIff(input.graphs, g);
    AfterLookup(s, input, g);
    NotedKeys(s.failing * (set k | k in input.order), input.order, Readings(input.results, input.mean));
    ReadingIs(input.results(g), input.mean);
  }

  predicate KeptReading(s: State, s': State, name: string, g: Graph) {
    && (name in s'.fields <==> name in s.fields) && (name in s.fields ==> s'.fields[name] == s.fields[name])
    && (g in s'.stale <==> name in s.fields)
  }

  lemma GraphsAreNamed(g: Graph, h: Graph)
    ensures NameOf(g) == NameOf(h) ==> g == h
  {
    assert |NameOf(g)| == |NameOf(h)| ==> NameOf(g)[3] == NameOf(h)[3] && NameOf(g)[4] == NameOf(h)[4] ==> g == h;
  }

  lemma ListedIff(graphs: Json, g: Graph)
    requires graphs.List?
    ensures Lists(graphs.items, g) <==> Listed(graphs, NameOf(g))
  {
    forall i | 0 <= i < |graphs.items|
      ensures IsGraph(graphs.items[i], g) <==> IsNamed(graphs.items[i], NameOf(g))
    {}
  }

  lemma ReadingIs(result: Result, mean: Json -> Option<real>)
    ensures var reading := Classify(result, mean);
            match result
            case OtherError => reading == Crashed
            case ServerError => reading == Failed
            case Payload(json) =>
              if mean(json).Some? then reading == Value(mean(json).value)
              else if HasNoReadingYet(json) then reading == EmptyWindow else reading == Failed
  {}

  /** Where an exception or a malformed list of graphs ends the call, the published values stay. */
  lemma UnfinishedKeeps(s: State, input: Input)
    requires !Found(input) || !Completes(input)
    ensures After(s, input).fields == s.fields
    ensures Found(input) <==> input.Discovered? && input.graphs.List?
    ensures !Found(input) ==> forall g :: g in After(s, input).stale <==> FieldOf(g) in s.fields
  {
    forall g: Graph
      ensures g in GRAPHS
    {
      FieldsAreDistinct(g, g);
    }
  }
}
