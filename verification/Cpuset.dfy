/** The number of CPUs in a cpuset such as "0-3,6". */
module Cpuset {
  import opened Wire
  import opened Text
  import opened Json

  /** What one segment says: its first and last CPU, unless it is empty or malformed. */
  function Reads(segment: string): Option<(int, int)> {
    var part := Strip(segment);
    var n := Find(part, '-');
    if part == "" then None
    else if n < |part| then
      var (first, last) := (ParseInt(part[..n]), ParseInt(part[n + 1..]));
      if first.None? || last.None? then None else Some((first.value, last.value))
    else
      var cpu := ParseInt(part);
      if cpu.None? then None else Some((cpu.value, cpu.value))
  }

  function RangeSize(first: int, last: int): nat {
    if first <= last then last - first + 1 else 0
  }

  function SegmentSize(segment: string): nat {
    var range := Reads(segment);
    if range.None? then 0 else RangeSize(range.value.0, range.value.1)
  }

  function TotalSize(segments: seq<string>): nat {
    if segments == [] then 0 else TotalSize(segments[..|segments| - 1]) + SegmentSize(segments[|segments| - 1])
  }

  function Size(cpuset: Json): nat {
    if cpuset.Str? then TotalSize(Split(cpuset.s, ',')) else 0
  }

  /** `_cpuset_size` */
  method CpusetSize(cpuset: Json) returns (count: nat)
    ensures count == Size(cpuset)
  {
    if !cpuset.Str? {
      return 0;
    }
    if Strip(cpuset.s) == "" {
      BlankIsEmpty(cpuset.s);
      return 0;
    }
    count := 0;
    var segments := Split(cpuset.s, ',');
    for i := 0 to |segments|
      invariant count == TotalSize(segments[..i])
    {
      assert segments[..i + 1][..i] == segments[..i];
      var size := CountSegment(segments[i]);
      count := count + size;
    }
    assert segments[..|segments|] == segments;
  }

  /** The loop's body. */
  method CountSegment(segment: string) returns (size: nat)
    ensures size == SegmentSize(segment)
  {
    var part := Strip(segment);
    if part == "" {
      return 0;
    }
    var dash := Find(part, '-');
    if dash < |part| {
      var start, end := ParseInt(part[..dash]), ParseInt(part[dash + 1..]);
      if start.None? || end.None? {
        return 0;
      }
      return if end.value - start.value + 1 > 0 then end.value - start.value + 1 else 0;
    }
    return if ParseInt(part).Some? then 1 else 0;
  }

  lemma BlankIsEmpty(s: string)
    requires Strip(s) == ""
    ensures TotalSize(Split(s, ',')) == 0
  {
    StrippedIsBlank(s);
    assert s[..Find(s, ',')] == s;
    assert TotalSize([s]) == TotalSize([]) + SegmentSize(s);
  }

  lemma {:induction false} StrippedIsBlank(s: string)
    requires Strip(s) == ""
    ensures Blank(s)
  {
    if s != "" {
      if IsSpace(s[0]) {
        StrippedIsBlank(s[1..]);
      } else {
        KeepsFirst(s);
      }
    }
  }

  lemma {:induction false} KeepsFirst(s: string)
    requires s != "" && !IsSpace(s[0])
    ensures StripRight(s) != ""
  {
    if IsSpace(s[|s| - 1]) {
      KeepsFirst(s[..|s| - 1]);
    }
  }

  // ---------------------------------------------------------------- distinct CPUs

  function Range(first: int, last: int): (cpus: set<int>)
    ensures forall cpu :: cpu in cpus <==> first <= cpu <= last
    decreases RangeSize(first, last)
  {
    if first <= last then Range(first, last - 1) + {last} else {}
  }

  lemma {:induction false} RangeCount(first: int, last: int)
    ensures |Range(first, last)| == RangeSize(first, last)
    decreases RangeSize(first, last)
  {
    if first <= last {
      RangeCount(first, last - 1);
    }
  }

  function CpusOf(segment: string): set<int> {
    var range := Reads(segment);
    if range.None? then {} else Range(range.value.0, range.value.1)
  }

  function CpuSets(segments: seq<string>): (sets: seq<set<int>>)
    ensures |sets| == |segments| && forall i :: 0 <= i < |sets| ==> sets[i] == CpusOf(segments[i])
  {
    seq(|segments|, i requires 0 <= i < |segments| => CpusOf(segments[i]))
  }

  function Union(sets: seq<set<int>>): (u: set<int>)
    ensures forall x :: x in u <==> exists i :: 0 <= i < |sets| && x in sets[i]
  {
    if sets == [] then {}
    else
      assert sets == sets[..|sets| - 1] + [sets[|sets| - 1]];
      Union(sets[..|sets| - 1]) + sets[|sets| - 1]
  }

  predicate Disjoint(sets: seq<set<int>>) {
    forall i, j :: 0 <= i < j < |sets| ==> sets[i] * sets[j] == {}
  }

  function Sizes(sets: seq<set<int>>): nat {
    if sets == [] then 0 else Sizes(sets[..|sets| - 1]) + |sets[|sets| - 1]|
  }

  lemma UnionCount(a: set<int>, b: set<int>)
    ensures |a + b| <= |a| + |b|
    ensures |a + b| == |a| + |b| <==> a * b == {}
  {
    assert |a + b| == |a| + |b| - |a * b|;
  }

  lemma DisjointFromLast(sets: seq<set<int>>)
    requires sets != []
    ensures var (front, last) := (sets[..|sets| - 1], sets[|sets| - 1]);
            Disjoint(sets) <==> Disjoint(front) && Union(front) * last == {}
  {
    var (n, front, last) := (|sets| - 1, sets[..|sets| - 1], sets[|sets| - 1]);
    if Disjoint(front) && Union(front) * last == {} {
      forall i | 0 <= i < n
        ensures sets[i] * last == {}
      {
        assert front[i] <= Union(front);
      }
      forall i, j | 0 <= i < j < n
        ensures sets[i] * sets[j] == {}
      {
        assert front[i] * front[j] == {};
      }
    }
    if Disjoint(sets) {
      forall x | x in Union(front)
        ensures x !in last
      {
        var i :| 0 <= i < n && x in front[i];
        assert sets[i] * sets[n] == {} && x !in sets[i] * sets[n];
      }
    }
  }

  /** Sizes add up to the size of the union exactly if no two of the sets overlap. */
  lemma {:induction false} SizesCountDistinct(sets: seq<set<int>>)
    ensures |Union(sets)| <= Sizes(sets)
    ensures |Union(sets)| == Sizes(sets) <==> Disjoint(sets)
  {
    if sets != [] {
      SizesCountDistinct(sets[..|sets| - 1]);
      UnionCount(Union(sets[..|sets| - 1]), sets[|sets| - 1]);
      DisjointFromLast(sets);
    }
  }

  lemma {:induction false} TotalIsSizes(segments: seq<string>)
    ensures TotalSize(segments) == Sizes(CpuSets(segments))
  {
    if segments != [] {
      var (n, front) := (|segments| - 1, segments[..|segments| - 1]);
      TotalIsSizes(front);
      assert CpuSets(segments)[..n] == CpuSets(front);
      if Reads(segments[n]).Some? {
        RangeCount(Reads(segments[n]).value.0, Reads(segments[n]).value.1);
      }
    }
  }

  /** For every cpuset text: the size is the number of distinct CPUs exactly if no two segments
      overlap, and never less. */
  lemma SizeCountsDistinct(cpuset: string)
    ensures var sets := CpuSets(Split(cpuset, ','));
            && |Union(sets)| <= Size(Str(cpuset))
            && (|Union(sets)| == Size(Str(cpuset)) <==> Disjoint(sets))
  {
    TotalIsSizes(Split(cpuset, ','));
    SizesCountDistinct(CpuSets(Split(cpuset, ',')));
  }

  // ---------------------------------------------------------------- printing

  /** A printed segment: one CPU, a range, or something that is neither. */
  datatype Segment =
    | One(before: string, cpu: nat, after: string)
    | Span(before: string, first: nat, left: string, right: string, last: nat, after: string)
    | Junk(text: string)

  predicate Printable(s: Segment) {
    match s
    case One(before, _, after) => Blank(before) && Blank(after)
    case Span(before, _, left, right, _, after) => Blank(before) && Blank(left) && Blank(right) && Blank(after)
    case Junk(text) => ',' !in text && Reads(text).None?
  }

  function Printed(s: Segment): string {
    match s
    case One(before, cpu, after) => before + Print(cpu) + after
    case Span(before, first, left, right, last, after) =>
      before + ((Print(first) + left) + "-" + (right + Print(last))) + after
    case Junk(text) => text
  }

  function PrintedAll(segments: seq<Segment>): (r: seq<string>)
    ensures |r| == |segments| && forall i :: 0 <= i < |r| ==> r[i] == Printed(segments[i])
  {
    seq(|segments|, i requires 0 <= i < |segments| => Printed(segments[i]))
  }

  /** The CPUs a segment stands for. */
  function Meant(s: Segment): set<int> {
    match s
    case One(_, cpu, _) => {cpu}
    case Span(_, first, _, _, last, _) => Range(first, last)
    case Junk(_) => {}
  }

  function MeantAll(segments: seq<Segment>): (sets: seq<set<int>>)
    ensures |sets| == |segments| && forall i :: 0 <= i < |sets| ==> sets[i] == Meant(segments[i])
  {
    seq(|segments|, i requires 0 <= i < |segments| => Meant(segments[i]))
  }

  /** A printed segment is read back as what it stands for. */
  lemma PrintedReads(s: Segment)
    requires Printable(s)
    ensures CpusOf(Printed(s)) == Meant(s)
    ensures ',' !in Printed(s)
  {
    match s {
      case One(before, cpu, after) => OneReads(before, cpu, after);
      case Span(before, first, left, right, last, after) => SpanReads(before, first, left, right, last, after);
      case Junk(_) =>
    }
  }

  lemma OneReads(before: string, cpu: nat, after: string)
    requires Blank(before) && Blank(after)
    ensures Reads(before + Print(cpu) + after) == Some((cpu, cpu))
  {
    var s := Print(cpu);
    assert IsDigit(s[0]) && IsDigit(s[|s| - 1]);
    StripPadded(before, s, after);
    assert s + "" == s && "" + s + "" == s;
    FindAt(s, '-', "");
    ParseIntPrint("", cpu, "");
  }

  lemma DashReads(segment: string, head: string, tail: string, first: int, last: int)
    requires Strip(segment) == head + "-" + tail && '-' !in head
    requires ParseInt(head) == Some(first) && ParseInt(tail) == Some(last)
    ensures Reads(segment) == Some((first, last))
  {
    var part := head + "-" + tail;
    assert part == head + ("-" + tail);
    FindAt(head, '-', "-" + tail);
    assert part[..|head|] == head && part[|head| + 1..] == tail;
  }

  lemma SpanReads(before: string, first: nat, left: string, right: string, last: nat, after: string)
    requires Blank(before) && Blank(left) && Blank(right) && Blank(after)
    ensures Reads(before + ((Print(first) + left) + "-" + (right + Print(last))) + after) == Some((first, last))
  {
    ReadsBeforeBlank(first, left);
    ReadsAfterBlank(right, last);
    DigitsRead(before, Print(first), left, right, Print(last), after, first, last);
  }

  lemma ReadsBeforeBlank(n: nat, after: string)
    requires Blank(after)
    ensures ParseInt(Print(n) + after) == Some(n)
  {
    var s := Print(n);
    assert "" + s == s;
    ParseIntPrint("", n, after);
  }

  lemma ReadsAfterBlank(before: string, n: nat)
    requires Blank(before)
    ensures ParseInt(before + Print(n)) == Some(n)
  {
    var s := before + Print(n);
    assert s + "" == s;
    ParseIntPrint(before, n, "");
  }

  lemma DigitsRead(before: string, a: string, left: string, right: string, b: string, after: string,
                   first: int, last: int)
    requires Blank(before) && Blank(left) && Blank(right) && Blank(after) && a != "" && b != ""
    requires forall i :: 0 <= i < |a| ==> IsDigit(a[i])
    requires forall i :: 0 <= i < |b| ==> IsDigit(b[i])
    requires ParseInt(a + left) == Some(first) && ParseInt(right + b) == Some(last)
    ensures Reads(before + ((a + left) + "-" + (right + b)) + after) == Some((first, last))
  {
    TightSpan(a, left, right, b);
    StripPadded(before, (a + left) + "-" + (right + b), after);
    DashReads(before + ((a + left) + "-" + (right + b)) + after, a + left, right + b, first, last);
  }

  lemma TightSpan(a: string, left: string, right: string, b: string)
    requires a != "" && b != "" && Blank(left)
    requires forall i :: 0 <= i < |a| ==> IsDigit(a[i])
    requires forall i :: 0 <= i < |b| ==> IsDigit(b[i])
    ensures Tight((a + left) + "-" + (right + b)) && '-' !in a + left
  {
    var s := (a + left) + "-" + (right + b);
    assert s[0] == a[0] && s[|s| - 1] == b[|b| - 1];
  }

  /** Printing ranges, with any blanks around the numbers and any empty or malformed segments in
      between, gives a text whose size is the number of CPUs meant, exactly if no two overlap. */
  lemma SizeOfPrinted(segments: seq<Segment>)
    requires segments != [] && forall s :: s in segments ==> Printable(s)
    ensures Size(Str(Join(PrintedAll(segments), ','))) == |Union(MeantAll(segments))| <==> Disjoint(MeantAll(segments))
  {
    var parts := PrintedAll(segments);
    forall i | 0 <= i < |segments|
      ensures CpusOf(parts[i]) == Meant(segments[i]) && ',' !in parts[i]
    {
      PrintedReads(segments[i]);
    }
    SplitJoin(parts, ',');
    assert CpuSets(parts) == MeantAll(segments);
    TotalIsSizes(parts);
    SizesCountDistinct(CpuSets(parts));
  }
}
