/** Means of a netdata graph's series: aggregated ones, and averages of the raw points where those
    are missing. Numbers are exact. */
module Series {
  import opened Wire
  import opened Json

  const TIME: Json := Str("time")

  function Sum(samples: seq<real>): real {
    if samples == [] then 0.0 else Sum(samples[..|samples| - 1]) + samples[|samples| - 1]
  }

  function Average(samples: seq<real>): real
    requires samples != []
  {
    Sum(samples) / |samples| as real
  }

  /** The series of a legend: its strings, other than the time column's. */
  function Names(legend: seq<Json>): set<string> {
    if legend == [] then {}
    else
      var last := legend[|legend| - 1];
      Names(legend[..|legend| - 1]) + if last.Str? && last != TIME then {last.s} else {}
  }

  // ---------------------------------------------------------------- raw points

  function Width(legend: seq<Json>): nat {
    if TIME in legend then |legend| else |legend| + 1
  }

  /** A point's values, one for each entry of the legend; none if the point has the wrong width. */
  function Cells(point: Json, legend: seq<Json>): (cells: Option<seq<Json>>)
    ensures cells.Some? ==> |cells.value| == |legend|
  {
    if !point.List? || |point.items| != Width(legend) then None
    else if TIME in legend then Some(point.items)
    else Some(point.items[1..])
  }

  /** The finite values under the name `name` in one point. */
  function RowSamples(cells: seq<Json>, legend: seq<Json>, name: string): seq<real>
    requires |cells| == |legend|
  {
    if legend == [] then []
    else
      var n := |legend| - 1;
      var value := Finite(cells[n]);
      RowSamples(cells[..n], legend[..n], name) + if legend[n] == Str(name) && value.Some? then [value.value] else []
  }

  function PointSamples(point: Json, legend: seq<Json>, name: string): seq<real> {
    var cells := Cells(point, legend);
    if cells.None? then [] else RowSamples(cells.value, legend, name)
  }

  function Samples(data: seq<Json>, legend: seq<Json>, name: string): seq<real> {
    if data == [] then []
    else Samples(data[..|data| - 1], legend, name) + PointSamples(data[|data| - 1], legend, name)
  }

  /** `_raw_series_means` */
  function RawMeans(data: Json, legend: seq<Json>): map<string, real> {
    if !data.List? then map[]
    else
      map name | name in Names(legend) && Samples(data.items, legend, name) != [] ::
        Average(Samples(data.items, legend, name))
  }

  // ---------------------------------------------------------------- in place

  type Table = map<string, seq<real>>

  function Of(samples: Table, name: string): seq<real> {
    if name in samples then samples[name] else []
  }

  /** The table after some points and the first cells of the next one. */
  ghost predicate Holds(samples: Table, data: seq<Json>, cells: seq<Json>, heads: seq<Json>, legend: seq<Json>)
    requires |cells| == |heads|
  {
    && (forall name ::
          Of(samples, name)
          == if Str(name) == TIME then [] else Samples(data, legend, name) + RowSamples(cells, heads, name))
    && (forall name :: name in samples ==> samples[name] != [])
  }

  /** One cell appended to its series. */
  function AddCell(samples: Table, name: Json, cell: Json): Table {
    var value := Finite(cell);
    if name.Str? && name != TIME && value.Some? then samples[name.s := Of(samples, name.s) + [value.value]] else samples
  }

  lemma CellStep(samples: Table, data: seq<Json>, cells: seq<Json>, heads: seq<Json>, cell: Json, head: Json,
                 legend: seq<Json>)
    requires |cells| == |heads| && Holds(samples, data, cells, heads, legend)
    ensures Holds(AddCell(samples, head, cell), data, cells + [cell], heads + [head], legend)
  {
    var result := AddCell(samples, head, cell);
    forall name
      ensures Of(result, name)
           == if Str(name) == TIME then []
              else Samples(data, legend, name) + RowSamples(cells + [cell], heads + [head], name)
    {
      assert Of(samples, name)
          == if Str(name) == TIME then [] else Samples(data, legend, name) + RowSamples(cells, heads, name);
      RowSnoc(cells, heads, cell, head, name);
    }
  }

  lemma RowSnoc(cells: seq<Json>, heads: seq<Json>, cell: Json, head: Json, name: string)
    requires |cells| == |heads|
    ensures RowSamples(cells + [cell], heads + [head], name)
         == RowSamples(cells, heads, name)
            + if head == Str(name) && Finite(cell).Some? then [Finite(cell).value] else []
  {
    assert (cells + [cell])[..|cells|] == cells && (heads + [head])[..|heads|] == heads;
  }

  lemma PointStep(samples: Table, data: seq<Json>, point: Json, legend: seq<Json>)
    requires var cells := Cells(point, legend);
             if cells.Some? then Holds(samples, data, cells.value, legend, legend)
             else Holds(samples, data, [], [], legend)
    ensures Holds(samples, data + [point], [], [], legend)
  {
    forall name
      ensures Samples(data + [point], legend, name) == Samples(data, legend, name) + PointSamples(point, legend, name)
    {
      assert (data + [point])[..|data|] == data;
    }
  }

  method AddPoint(samples: Table, ghost data: seq<Json>, cells: seq<Json>, legend: seq<Json>) returns (result: Table)
    requires |cells| == |legend| && Holds(samples, data, [], [], legend)
    ensures Holds(result, data, cells, legend, legend)
  {
    result := samples;
    for c := 0 to |legend|
      invariant Holds(result, data, cells[..c], legend[..c], legend)
    {
      assert cells[..c + 1] == cells[..c] + [cells[c]] && legend[..c + 1] == legend[..c] + [legend[c]];
      CellStep(result, data, cells[..c], legend[..c], cells[c], legend[c], legend);
      var value := Finite(cells[c]);
      if legend[c].Str? && legend[c] != TIME && value.Some? {
        var name := legend[c].s;
        result := result[name := Of(result, name) + [value.value]];
      }
    }
    assert cells[..|legend|] == cells && legend[..|legend|] == legend;
  }

  method RawSeriesMeans(data: Json, legend: seq<Json>) returns (means: map<string, real>)
    ensures means == RawMeans(data, legend)
  {
    if !data.List? {
      return map[];
    }
    var points := data.items;
    var samples: Table := map[];
    for i := 0 to |points|
      invariant Holds(samples, points[..i], [], [], legend)
    {
      var cells := Cells(points[i], legend);
      if cells.Some? {
        samples := AddPoint(samples, points[..i], cells.value, legend);
      }
      PointStep(samples, points[..i], points[i], legend);
      assert points[..i + 1] == points[..i] + [points[i]];
    }
    assert points[..|points|] == points;
    means := Averages(samples, points, legend);
  }

  method Averages(samples: Table, ghost data: seq<Json>, legend: seq<Json>) returns (means: map<string, real>)
    requires Holds(samples, data, [], [], legend)
    ensures means == RawMeans(List(data), legend)
  {
    TableIsComplete(samples, data, legend);
    means := map name | name in samples :: Average(samples[name]);
  }

  lemma TableIsComplete(samples: Table, data: seq<Json>, legend: seq<Json>)
    requires Holds(samples, data, [], [], legend)
    ensures forall name :: name in samples <==> name in Names(legend) && Samples(data, legend, name) != []
    ensures forall name :: name in samples ==> samples[name] == Samples(data, legend, name)
  {
    TimeIsNoSeries(legend);
    forall name
      ensures name in samples <==> name in Names(legend) && Samples(data, legend, name) != []
      ensures name in samples ==> samples[name] == Samples(data, legend, name)
    {
      assert Of(samples, name)
          == if Str(name) == TIME then [] else Samples(data, legend, name) + RowSamples([], [], name);
      if name in samples {
        SampledIsNamed(data, legend, name);
      }
    }
  }

  lemma {:induction false} SampledIsNamed(data: seq<Json>, legend: seq<Json>, name: string)
    requires Samples(data, legend, name) != [] && Str(name) != TIME
    ensures name in Names(legend)
  {
    var n := |data| - 1;
    if Samples(data[..n], legend, name) != [] {
      SampledIsNamed(data[..n], legend, name);
    } else {
      RowIsNamed(Cells(data[n], legend).value, legend, name);
    }
  }

  lemma {:induction false} RowIsNamed(cells: seq<Json>, legend: seq<Json>, name: string)
    requires |cells| == |legend| && RowSamples(cells, legend, name) != [] && Str(name) != TIME
    ensures name in Names(legend)
  {
    var n := |legend| - 1;
    if legend[n] != Str(name) {
      RowIsNamed(cells[..n], legend[..n], name);
    }
  }

  lemma {:induction false} TimeIsNoSeries(legend: seq<Json>)
    ensures "time" !in Names(legend)
  {
    if legend != [] {
      TimeIsNoSeries(legend[..|legend| - 1]);
    }
  }

  // ---------------------------------------------------------------- aggregated means

  /** `_aggregated_means` */
  function Aggregated(item: Fields): Fields {
    var aggregations := Get(item, "aggregations");
    var mean := if aggregations.Obj? then Get(aggregations.fields, "mean") else Null;
    if mean.Obj? then mean.fields else map[]
  }

  /** What `_graph_shape_error` has checked. */
  predicate WellShaped(item: Fields) {
    "legend" in item ==> item["legend"].List?
  }

  /** A series' mean: the aggregated one, or the raw one where that is missing. */
  function MeanOf(item: Fields, legend: seq<Json>, name: string): Option<real> {
    var aggregate := Finite(Get(Aggregated(item), name));
    var raw := RawMeans(Get(item, "data"), legend);
    if aggregate.Some? then aggregate else if name in raw then Some(raw[name]) else None
  }

  /** `_series_means` */
  function Means(item: Fields): map<string, real>
    requires WellShaped(item)
  {
    if "legend" !in item then
      var mean := Aggregated(item);
      map name | name in mean && name != "time" && Finite(mean[name]).Some? :: Finite(mean[name]).value
    else
      var legend := item["legend"].items;
      Collected(item, legend, Names(legend))
  }

  function Collected(item: Fields, legend: seq<Json>, names: set<string>): map<string, real> {
    map name | name in names && MeanOf(item, legend, name).Some? :: MeanOf(item, legend, name).value
  }

  lemma CollectedSnoc(item: Fields, legend: seq<Json>, names: set<string>, name: string)
    ensures var (means, mean) := (Collected(item, legend, names), MeanOf(item, legend, name));
            Collected(item, legend, names + {name}) == if mean.Some? then means[name := mean.value] else means
  {}

  method SeriesMeans(item: Fields) returns (means: map<string, real>)
    requires WellShaped(item)
    ensures means == Means(item)
  {
    if "legend" !in item {
      var mean := Aggregated(item);
      return map name | name in mean && name != "time" && Finite(mean[name]).Some? :: Finite(mean[name]).value;
    }
    var legend := item["legend"].items;
    var raw: Option<map<string, real>> := None;
    means := map[];
    for i := 0 to |legend|
      invariant raw.Some? ==> raw.value == RawMeans(Get(item, "data"), legend)
      invariant means == Collected(item, legend, Names(legend[..i]))
    {
      NamesSnoc(legend, i);
      if legend[i].Str? && legend[i] != TIME {
        var name := legend[i].s;
        CollectedSnoc(item, legend, Names(legend[..i]), name);
        var value;
        value, raw := SeriesMean(item, legend, name, raw);
        if value.Some? {
          means := means[name := value.value];
        }
      }
    }
    assert legend[..|legend|] == legend;
  }

  lemma NamesSnoc(legend: seq<Json>, i: nat)
    requires i < |legend|
    ensures Names(legend[..i + 1])
         == Names(legend[..i]) + if legend[i].Str? && legend[i] != TIME then {legend[i].s} else {}
  {
    assert legend[..i + 1][..i] == legend[..i];
  }

  /** The loop's body. The raw means are only computed when some series first needs them. */
  method SeriesMean(item: Fields, legend: seq<Json>, name: string, known: Option<map<string, real>>)
      returns (value: Option<real>, raw: Option<map<string, real>>)
    requires known.Some? ==> known.value == RawMeans(Get(item, "data"), legend)
    ensures value == MeanOf(item, legend, name)
    ensures raw.Some? ==> raw.value == RawMeans(Get(item, "data"), legend)
  {
    raw, value := known, Finite(Get(Aggregated(item), name));
    if value.None? {
      if raw.None? {
        var computed := RawSeriesMeans(Get(item, "data"), legend);
        raw := Some(computed);
      }
      value := if name in raw.value then Some(raw.value[name]) else None;
    }
  }

  // ---------------------------------------------------------------- columns

  /** The finite values of column `c` in the points of the right width. */
  function Column(data: seq<Json>, legend: seq<Json>, c: nat): seq<real>
    requires c < |legend|
  {
    if data == [] then []
    else
      var point := data[|data| - 1];
      Column(data[..|data| - 1], legend, c)
      + if !point.List? || |point.items| != Width(legend) then []
        else
          var value := Finite(point.items[if TIME in legend then c else c + 1]);
          if value.Some? then [value.value] else []
  }

  /** The finite values of all columns before `c` that have this name, column by column. */
  function Columns(data: seq<Json>, legend: seq<Json>, name: string, c: nat): seq<real>
    requires c <= |legend|
  {
    if c == 0 then []
    else if legend[c - 1] != Str(name) then Columns(data, legend, name, c - 1)
    else Columns(data, legend, name, c - 1) + Column(data, legend, c - 1)
  }

  lemma {:induction false} SumOfBoth(first: seq<real>, second: seq<real>)
    ensures Sum(first + second) == Sum(first) + Sum(second)
  {
    if second == [] {
      assert first + second == first;
    } else {
      var n := |second| - 1;
      assert (first + second)[..|first| + n] == first + second[..n];
      SumOfBoth(first, second[..n]);
    }
  }

  /** The same values, maybe in another order. */
  predicate Balanced(samples: seq<real>, columns: seq<real>) {
    |samples| == |columns| && Sum(samples) == Sum(columns)
  }

  /** The value a point adds to column `c`. */
  function CellOf(point: Json, legend: seq<Json>, c: nat): Option<real>
    requires c < |legend|
  {
    var cells := Cells(point, legend);
    if cells.None? then None else Finite(cells.value[c])
  }

  function Added(value: Option<real>): seq<real> {
    if value.Some? then [value.value] else []
  }

  /** The values a point adds under `name` in its columns before `c`. */
  function RowPart(point: Json, legend: seq<Json>, name: string, c: nat): seq<real>
    requires c <= |legend|
  {
    if c == 0 then []
    else if legend[c - 1] != Str(name) then RowPart(point, legend, name, c - 1)
    else RowPart(point, legend, name, c - 1) + Added(CellOf(point, legend, c - 1))
  }

  lemma RowStep(cells: seq<Json>, legend: seq<Json>, name: string, c: nat)
    requires |cells| == |legend| && c < |legend|
    ensures RowSamples(cells[..c + 1], legend[..c + 1], name)
         == RowSamples(cells[..c], legend[..c], name) + if legend[c] == Str(name) then Added(Finite(cells[c])) else []
  {
    RowSnoc(cells[..c], legend[..c], cells[c], legend[c], name);
    assert cells[..c + 1] == cells[..c] + [cells[c]] && legend[..c + 1] == legend[..c] + [legend[c]];
  }

  lemma {:induction false} RowPartIs(point: Json, legend: seq<Json>, name: string, c: nat)
    requires c <= |legend|
    ensures var cells := Cells(point, legend);
            RowPart(point, legend, name, c)
            == if cells.None? then [] else RowSamples(cells.value[..c], legend[..c], name)
  {
    if c > 0 {
      RowPartIs(point, legend, name, c - 1);
      var cells := Cells(point, legend);
      if cells.Some? {
        RowStep(cells.value, legend, name, c - 1);
      }
    }
  }

  /** A point adds to the columns what it adds to the samples. */
  lemma {:induction false} ColumnsSnoc(data: seq<Json>, point: Json, legend: seq<Json>, name: string, c: nat)
    requires c <= |legend|
    ensures Balanced(Columns(data, legend, name, c) + RowPart(point, legend, name, c),
                     Columns(data + [point], legend, name, c))
  {
    if c > 0 {
      ColumnsSnoc(data, point, legend, name, c - 1);
      if legend[c - 1] == Str(name) {
        ColumnsStep(data, point, legend, name, c - 1);
      }
    }
  }

  lemma ColumnsStep(data: seq<Json>, point: Json, legend: seq<Json>, name: string, c: nat)
    requires c < |legend| && legend[c] == Str(name)
    requires Balanced(Columns(data, legend, name, c) + RowPart(point, legend, name, c),
                      Columns(data + [point], legend, name, c))
    ensures Balanced(Columns(data, legend, name, c + 1) + RowPart(point, legend, name, c + 1),
                     Columns(data + [point], legend, name, c + 1))
  {
    ColumnSnoc(data, point, legend, c);
    Interleaved(Columns(data, legend, name, c), Column(data, legend, c), RowPart(point, legend, name, c),
                Added(CellOf(point, legend, c)), Columns(data + [point], legend, name, c));
  }

  lemma ColumnSnoc(data: seq<Json>, point: Json, legend: seq<Json>, c: nat)
    requires c < |legend|
    ensures Column(data + [point], legend, c) == Column(data, legend, c) + Added(CellOf(point, legend, c))
  {
    assert (data + [point])[..|data|] == data;
  }

  lemma Interleaved(before: seq<real>, column: seq<real>, row: seq<real>, cell: seq<real>, after: seq<real>)
    requires Balanced(before + row, after)
    ensures Balanced((before + column) + (row + cell), after + (column + cell))
  {
    SumOfBoth(before, row);
    SumOfBoth(before, column);
    SumOfBoth(row, cell);
    SumOfBoth(column, cell);
    SumOfBoth(before + column, row + cell);
    SumOfBoth(after, column + cell);
  }

  /** A series' samples are the finite values of its columns. */
  lemma {:induction false} SamplesAreColumns(data: seq<Json>, legend: seq<Json>, name: string)
    ensures Balanced(Samples(data, legend, name), Columns(data, legend, name, |legend|))
  {
    if data == [] {
      NoPoints(legend, name, |legend|);
    } else {
      var (front, last) := (data[..|data| - 1], data[|data| - 1]);
      SamplesAreColumns(front, legend, name);
      ColumnsSnoc(front, last, legend, name, |legend|);
      RowPartIs(last, legend, name, |legend|);
      var cells := Cells(last, legend);
      assert front + [last] == data && legend[..|legend|] == legend;
      assert cells.Some? ==> cells.value[..|legend|] == cells.value;
      SumOfBoth(Samples(front, legend, name), PointSamples(last, legend, name));
      SumOfBoth(Columns(front, legend, name, |legend|), PointSamples(last, legend, name));
    }
  }

  lemma {:induction false} NoPoints(legend: seq<Json>, name: string, c: nat)
    requires c <= |legend|
    ensures Columns([], legend, name, c) == []
  {
    if c > 0 {
      NoPoints(legend, name, c - 1);
    }
  }

  lemma {:induction false} NamesAreStrings(legend: seq<Json>, name: string)
    ensures name in Names(legend) <==> Str(name) in legend && name != "time"
  {
    if legend != [] {
      NamesAreStrings(legend[..|legend| - 1], name);
      assert legend == legend[..|legend| - 1] + [legend[|legend| - 1]];
    }
  }

  /** A series of the legend with an aggregated mean takes it; any other one takes the average of
      exactly the finite values of its own columns, if there are any. */
  lemma MeanIsColumnAverage(item: Fields, name: string)
    requires "legend" in item && item["legend"].List? && name != "time"
    ensures var (means, aggregate, legend) := (Means(item), Finite(Get(Aggregated(item), name)), item["legend"].items);
            var data := if Get(item, "data").List? then Get(item, "data").items else [];
            var columns := Columns(data, legend, name, |legend|);
            && (name in means <==> Str(name) in legend && (aggregate.Some? || columns != []))
            && (name in means ==> means[name] == if aggregate.Some? then aggregate.value else Average(columns))
  {
    var legend := item["legend"].items;
    NamesAreStrings(legend, name);
    NoPoints(legend, name, |legend|);
    if Get(item, "data").List? {
      SamplesAreColumns(Get(item, "data").items, legend, name);
    }
  }

  // ---------------------------------------------------------------- plain tables

  /** What an average is: together with the number of values it makes up their sum. */
  lemma AverageIs(samples: seq<real>, more: seq<real>, value: real)
    ensures samples != [] ==> Average(samples) * |samples| as real == Sum(samples)
    ensures Sum([value]) == value && Sum(samples + more) == Sum(samples) + Sum(more) && Sum([]) == 0.0
  {
    assert [value][..0] == [];
    SumOfBoth(samples, more);
  }

  /** The points of one series: pairs of a time and a value. */
  function Points(values: seq<(Json, real)>): (points: seq<Json>)
    ensures |points| == |values|
  {
    seq(|values|, i requires 0 <= i < |values| => List([values[i].0, Float(values[i].1)]))
  }

  function Seconds(values: seq<(Json, real)>): (seconds: seq<real>)
    ensures |seconds| == |values|
  {
    seq(|values|, i requires 0 <= i < |values| => values[i].1)
  }

  lemma {:induction false} PointsAreSamples(values: seq<(Json, real)>, name: string)
    requires name != "time"
    ensures Samples(Points(values), [Str(name)], name) == Seconds(values)
  {
    if values != [] {
      var (front, last) := (values[..|values| - 1], values[|values| - 1]);
      PointsAreSamples(front, name);
      assert Points(values) == Points(front) + [List([last.0, Float(last.1)])];
      assert Seconds(values) == Seconds(front) + [last.1];
      assert (Points(front) + [List([last.0, Float(last.1)])])[..|front|] == Points(front);
      OnePoint(last, name);
    }
  }

  lemma OnePoint(value: (Json, real), name: string)
    requires name != "time"
    ensures PointSamples(List([value.0, Float(value.1)]), [Str(name)], name) == [value.1]
  {
    assert [value.0, Float(value.1)][1..] == [Float(value.1)] && TIME !in [Str(name)];
    RowSnoc([], [], Float(value.1), Str(name), name);
    assert [] + [Float(value.1)] == [Float(value.1)] && [] + [Str(name)] == [Str(name)];
  }

  /** For example: a graph with one series, whose points are pairs of a time and a value, has the average
      of the values as the mean of that series, and no other. */
  lemma OneSeries(item: Fields, values: seq<(Json, real)>, name: string)
    requires name != "time" && values != [] && "legend" in item && item["legend"] == List([Str(name)])
    requires "data" in item && item["data"] == List(Points(values)) && "aggregations" !in item
    ensures Means(item) == map[name := Average(Seconds(values))]
  {
    PointsAreSamples(values, name);
    assert [Str(name)][..0] == [] && Names([Str(name)]) == {name};
  }

  /** And an aggregated mean counts before that average. */
  lemma AggregatedCounts(item: Fields, aggregations: Fields, mean: Fields, name: string, value: real)
    requires "aggregations" in item && item["aggregations"] == Obj(aggregations)
    requires "mean" in aggregations && aggregations["mean"] == Obj(mean)
    requires name in mean && mean[name] == Float(value) && name != "time"
    requires "legend" in item ==> item["legend"].List? && Str(name) in item["legend"].items
    ensures name in Means(item) && Means(item)[name] == value
  {
    if "legend" in item {
      NamesAreStrings(item["legend"].items, name);
    }
  }

  // ---------------------------------------------------------------- where the time column is

  /** A point whose timestamp is moved from the front to position `p`. */
  function Moved(point: Json, width: nat, p: nat): Json
    requires p < width
  {
    if !point.List? || |point.items| != width then point
    else List(point.items[1..p + 1] + [point.items[0]] + point.items[p + 1..])
  }

  function MovedAll(data: seq<Json>, width: nat, p: nat): (r: seq<Json>)
    requires p < width
    ensures |r| == |data|
  {
    seq(|data|, i requires 0 <= i < |data| => Moved(data[i], width, p))
  }

  function WithTime(legend: seq<Json>, p: nat): seq<Json>
    requires p <= |legend|
  {
    legend[..p] + [TIME] + legend[p..]
  }

  lemma {:induction false} RowSplits(cells: seq<Json>, cells': seq<Json>, heads: seq<Json>, heads': seq<Json>,
                                     name: string)
    requires |cells| == |heads| && |cells'| == |heads'|
    ensures RowSamples(cells + cells', heads + heads', name)
         == RowSamples(cells, heads, name) + RowSamples(cells', heads', name)
    decreases |heads'|
  {
    if heads' == [] {
      assert cells + cells' == cells && heads + heads' == heads;
    } else {
      var n := |heads'| - 1;
      RowSplits(cells, cells'[..n], heads, heads'[..n], name);
      RowSnoc(cells + cells'[..n], heads + heads'[..n], cells'[n], heads'[n], name);
      assert cells + cells' == cells + cells'[..n] + [cells'[n]] && heads + heads' == heads + heads'[..n] + [heads'[n]];
    }
  }

  lemma RowMoved(time: Json, left: seq<Json>, right: seq<Json>, heads: seq<Json>, heads': seq<Json>, name: string)
    requires |left| == |heads| && |right| == |heads'| && Str(name) != TIME
    ensures RowSamples(left + [time] + right, heads + [TIME] + heads', name)
         == RowSamples(left + right, heads + heads', name)
  {
    RowSplits(left + [time], right, heads + [TIME], heads', name);
    RowSnoc(left, heads, time, TIME, name);
    RowSplits(left, right, heads, heads', name);
  }

  lemma PointMoved(point: Json, legend: seq<Json>, p: nat, name: string)
    requires TIME !in legend && p <= |legend| && Str(name) != TIME
    ensures PointSamples(Moved(point, |legend| + 1, p), WithTime(legend, p), name) == PointSamples(point, legend, name)
  {
    assert WithTime(legend, p)[p] == TIME;
    if point.List? && |point.items| == |legend| + 1 {
      var (time, cells) := (point.items[0], point.items[1..]);
      RowMoved(time, cells[..p], cells[p..], legend[..p], legend[p..], name);
      assert point.items[1..p + 1] == cells[..p] && point.items[p + 1..] == cells[p..];
      assert cells == cells[..p] + cells[p..] && legend == legend[..p] + legend[p..];
    }
  }

  lemma {:induction false} SamplesMoved(data: seq<Json>, legend: seq<Json>, p: nat, name: string)
    requires TIME !in legend && p <= |legend| && Str(name) != TIME
    ensures Samples(MovedAll(data, |legend| + 1, p), WithTime(legend, p), name) == Samples(data, legend, name)
  {
    if data != [] {
      var n := |data| - 1;
      assert MovedAll(data, |legend| + 1, p)[..n] == MovedAll(data[..n], |legend| + 1, p);
      SamplesMoved(data[..n], legend, p, name);
      PointMoved(data[n], legend, p, name);
    }
  }

  lemma NamesMoved(legend: seq<Json>, p: nat)
    requires p <= |legend|
    ensures Names(WithTime(legend, p)) == Names(legend)
  {
    forall name
      ensures name in Names(WithTime(legend, p)) <==> name in Names(legend)
    {
      NamesAreStrings(WithTime(legend, p), name);
      NamesAreStrings(legend, name);
      assert legend == legend[..p] + legend[p..];
    }
  }

  /** An item whose legend does not list the time column, in the other form: with the time column at
      position `p` of the legend, and each timestamp there. */
  function TimeAt(item: Fields, p: nat): Fields
    requires "legend" in item && item["legend"].List? && p <= |item["legend"].items|
  {
    var legend := item["legend"].items;
    var data := Get(item, "data");
    item["legend" := List(WithTime(legend, p))]
        ["data" := if data.List? then List(MovedAll(data.items, |legend| + 1, p)) else data]
  }

  lemma RawMeansMoved(data: seq<Json>, legend: seq<Json>, p: nat)
    requires TIME !in legend && p <= |legend|
    ensures RawMeans(List(MovedAll(data, |legend| + 1, p)), WithTime(legend, p)) == RawMeans(List(data), legend)
  {
    NamesMoved(legend, p);
    TimeIsNoSeries(legend);
    forall name | name in Names(legend)
      ensures Samples(MovedAll(data, |legend| + 1, p), WithTime(legend, p), name) == Samples(data, legend, name)
    {
      SamplesMoved(data, legend, p, name);
    }
  }

  lemma MeanMoved(item: Fields, p: nat, name: string)
    requires "legend" in item && item["legend"].List? && TIME !in item["legend"].items && p <= |item["legend"].items|
    ensures MeanOf(TimeAt(item, p), WithTime(item["legend"].items, p), name) == MeanOf(item, item["legend"].items, name)
  {
    var data := Get(item, "data");
    assert Get(TimeAt(item, p), "aggregations") == Get(item, "aggregations");
    if data.List? {
      RawMeansMoved(data.items, item["legend"].items, p);
    }
  }

  /** Wherever the legend lists the time column, or leaves it out, every series' mean is the same. */
  lemma TimeColumnIsIrrelevant(item: Fields, p: nat)
    requires "legend" in item && item["legend"].List? && TIME !in item["legend"].items && p <= |item["legend"].items|
    ensures Means(TimeAt(item, p)) == Means(item)
  {
    NamesMoved(item["legend"].items, p);
    forall name
      ensures MeanOf(TimeAt(item, p), WithTime(item["legend"].items, p), name)
           == MeanOf(item, item["legend"].items, name)
    {
      MeanMoved(item, p, name);
    }
  }
}
