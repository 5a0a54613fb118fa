/**
  `SeriesFilter`: the list of series the user asked for, bound to column
  positions by the first header line the parser meets.
*/
module SeriesFilters {
  import opened Wrappers
  import opened Strings
  import opened SeriesTypes

  /** The first column whose header is exactly `name`. */
  function FirstIndex(headers: seq<string>, name: string): (r: Option<nat>)
    ensures r.Some? ==> r.value < |headers| && headers[r.value] == name
    ensures r.Some? ==> forall j :: 0 <= j < r.value ==> headers[j] != name
    ensures r.None? <==> name !in headers
    decreases |headers|
  {
    if |headers| == 0 then None
    else if headers[0] == name then Some(0)
    else
      match FirstIndex(headers[1..], name)
      case Some(i) => Some(i + 1)
      case None => None
  }

  /** Conversely, a column carrying `name` with no earlier one is what `FirstIndex` finds. */
  lemma FirstIndexIs(headers: seq<string>, name: string, i: nat)
    requires i < |headers| && headers[i] == name
    requires forall j :: 0 <= j < i ==> headers[j] != name
    ensures FirstIndex(headers, name) == Some(i)
  {
    assert name in headers;
  }

  /** The series one desired entry resolves to: none when no column carries its name. */
  function ResolveOne(d: DesiredSeries, headers: seq<string>): seq<Series>
  {
    match FirstIndex(headers, d.name)
    case Some(i) => [Series(d.kind, d.name, i)]
    case None => []
  }

  /** What one pass of `InitializeWithHeader` appends: the desired entries found in the header, in registration order. */
  function Resolve(desired: seq<DesiredSeries>, headers: seq<string>): seq<Series>
    decreases |desired|
  {
    if desired == [] then []
    else Resolve(desired[..|desired| - 1], headers) + ResolveOne(desired[|desired| - 1], headers)
  }

  /** Every resolved series sits at the first column whose header is its name. */
  lemma {:induction false} ResolvedPositions(desired: seq<DesiredSeries>, headers: seq<string>)
    ensures forall k :: 0 <= k < |Resolve(desired, headers)| ==>
      var s := Resolve(desired, headers)[k];
      && s.position < |headers|
      && headers[s.position] == s.name
      && (forall j :: 0 <= j < s.position ==> headers[j] != s.name)
    decreases |desired|
  {
    if desired != [] {
      ResolvedPositions(desired[..|desired| - 1], headers);
    }
  }

  /** Nothing resolves exactly when no desired name is a column of the header. */
  lemma {:induction false} ResolveEmptyIff(desired: seq<DesiredSeries>, headers: seq<string>)
    ensures Resolve(desired, headers) == [] <==> forall k :: 0 <= k < |desired| ==> desired[k].name !in headers
    decreases |desired|
  {
    if desired != [] {
      var init := desired[..|desired| - 1];
      ResolveEmptyIff(init, headers);
      assert forall k :: 0 <= k < |init| ==> init[k] == desired[k];
    }
  }

  /** The positions, in registration order, of the desired entries whose name is a column. */
  function MatchedIndices(desired: seq<DesiredSeries>, headers: seq<string>): (ix: seq<nat>)
    ensures forall k :: 0 <= k < |ix| ==> ix[k] < |desired| && desired[ix[k]].name in headers
    ensures forall k1, k2 :: 0 <= k1 < k2 < |ix| ==> ix[k1] < ix[k2]
    ensures forall j :: 0 <= j < |desired| && desired[j].name in headers ==> j in ix
    decreases |desired|
  {
    if desired == [] then []
    else
      var n := |desired| - 1;
      var init := MatchedIndices(desired[..n], headers);
      if desired[n].name in headers then init + [n] else init
  }

  /**
    Resolution keeps registration order and drops only what the header lacks:
    the k-th resolved series is the k-th desired entry whose name is a column.
  */
  lemma {:induction false} ResolveFollowsRegistration(desired: seq<DesiredSeries>, headers: seq<string>)
    ensures var r, ix := Resolve(desired, headers), MatchedIndices(desired, headers);
      && |r| == |ix|
      && forall k :: 0 <= k < |r| ==>
           r[k].name == desired[ix[k]].name && r[k].kind == desired[ix[k]].kind
    decreases |desired|
  {
    if desired != [] {
      var n := |desired| - 1;
      ResolveFollowsRegistration(desired[..n], headers);
      var r0, ix0 := Resolve(desired[..n], headers), MatchedIndices(desired[..n], headers);
      assert forall k :: 0 <= k < |ix0| ==> desired[..n][ix0[k]] == desired[ix0[k]];
      assert Resolve(desired, headers) == r0 + ResolveOne(desired[n], headers);
      if desired[n].name in headers {
        assert MatchedIndices(desired, headers) == ix0 + [n];
        assert |ResolveOne(desired[n], headers)| == 1;
      } else {
        assert MatchedIndices(desired, headers) == ix0;
        assert ResolveOne(desired[n], headers) == [];
      }
    }
  }

  /** Resolving one more desired entry appends what that entry resolves to. */
  lemma ResolveStep(desired: seq<DesiredSeries>, d: nat, headers: seq<string>)
    requires d < |desired|
    ensures Resolve(desired[..d + 1], headers) == Resolve(desired[..d], headers) + ResolveOne(desired[d], headers)
  {
    assert desired[..d + 1][..d] == desired[..d];
  }

  class SeriesFilter {
    /** The (name, kind) pairs asked for, in registration order. */
    var desiredSeries: seq<DesiredSeries>
    /** The series found in a header, appended by every `InitializeWithHeader`. */
    var series: seq<Series>

    constructor ()
      ensures desiredSeries == [] && series == []
    {
      desiredSeries := [];
      series := [];
    }

    method AddDesiredSeries(name: string, kind: SeriesKind)
      modifies this
      ensures desiredSeries == old(desiredSeries) + [DesiredSeries(name, kind)]
      ensures series == old(series)
    {
      desiredSeries := desiredSeries + [DesiredSeries(name, kind)];
    }

    /**
      Binds every desired series to the first header column of its name and
      appends it; `ok` is false where the source throws
      `SeriesNotFoundException`, that is when `series` is still empty.
    */
    method InitializeWithHeader(headerLine: string) returns (ok: bool)
      modifies this`series
      ensures series == old(series) + Resolve(desiredSeries, Split(headerLine, {','}))
      ensures ok <==> series != []
    {
      var headers := Split(headerLine, {','});
      BindColumns(headers);
      ok := |series| != 0;
    }

    /** The `foreach` of `InitializeWithHeader` over the desired series, with its inner search of the columns. */
    method BindColumns(headers: seq<string>)
      modifies this`series
      ensures series == old(series) + Resolve(desiredSeries, headers)
    {
      var max := |headers|;
      var d := 0;
      while d < |desiredSeries|
        invariant 0 <= d <= |desiredSeries|
        invariant series == old(series) + Resolve(desiredSeries[..d], headers)
      {
        var desired := desiredSeries[d];
        ResolveStep(desiredSeries, d, headers);
        var i := 0;
        while i < max
          invariant 0 <= i <= max
          invariant forall j :: 0 <= j < i ==> headers[j] != desired.name
          invariant series == old(series) + Resolve(desiredSeries[..d], headers)
        {
          if headers[i] == desired.name {
            FirstIndexIs(headers, desired.name, i);
            series := series + [Series(desired.kind, desired.name, i)];
            break;
          }
          i := i + 1;
        }
        d := d + 1;
      }
      assert desiredSeries[..d] == desiredSeries;
    }
  }

  /** The header of the unit test, given as its comma-joined columns. */
  const TestHeaderColumns: seq<string> :=
    ["Time", "CN", "PN", "%ProcessorTime", "%UT", "TC", "PrivateBytes", "WS"]

  lemma ResolveTwo(a: DesiredSeries, b: DesiredSeries, headers: seq<string>)
    ensures Resolve([a, b], headers) == ResolveOne(a, headers) + ResolveOne(b, headers)
  {
    assert [a, b][..1] == [a] && [a][..0] == [];
    assert Resolve([a], headers) == Resolve([], headers) + ResolveOne(a, headers);
    assert Resolve([a, b], headers) == Resolve([a], headers) + ResolveOne(b, headers);
  }

  lemma TestHeadersSplit()
    ensures Split(Join(TestHeaderColumns, ","), {','}) == TestHeaderColumns
    ensures Split(Join(["Time", "", "", "", "", "", ""], ","), {','}) == ["Time", "", "", "", "", "", ""]
  {
    SplitJoin(TestHeaderColumns, ',');
    SplitJoin(["Time", "", "", "", "", "", ""], ',');
  }

  lemma ProcessorTimeAtColumn3()
    ensures ResolveOne(DesiredSeries("%ProcessorTime", Default), TestHeaderColumns) == [Series(Default, "%ProcessorTime", 3)]
  {
    FirstIndexIs(TestHeaderColumns, "%ProcessorTime", 3);
  }

  lemma PrivateBytesAtColumn6()
    ensures ResolveOne(DesiredSeries("PrivateBytes", Memory), TestHeaderColumns) == [Series(Memory, "PrivateBytes", 6)]
  {
    FirstIndexIs(TestHeaderColumns, "PrivateBytes", 6);
  }

  lemma ResolveTestHeader()
    ensures Resolve([DesiredSeries("%ProcessorTime", Default), DesiredSeries("PrivateBytes", Memory)], TestHeaderColumns)
         == [Series(Default, "%ProcessorTime", 3), Series(Memory, "PrivateBytes", 6)]
  {
    var a, b := DesiredSeries("%ProcessorTime", Default), DesiredSeries("PrivateBytes", Memory);
    ResolveTwo(a, b, TestHeaderColumns);
    ProcessorTimeAtColumn3();
    PrivateBytesAtColumn6();
  }

  /** A header of empty column names resolves nothing. */
  lemma ResolveEmptyHeader()
    ensures Resolve([DesiredSeries("%ProcessorTime", Default), DesiredSeries("PrivateBytes", Memory)], ["Time", "", "", "", "", "", ""])
         == []
  {
    var a, b := DesiredSeries("%ProcessorTime", Default), DesiredSeries("PrivateBytes", Memory);
    ResolveEmptyIff([a, b], ["Time", "", "", "", "", "", ""]);
  }

  /**
    The unit tests of `SeriesFilter`: with "%ProcessorTime" (default) and
    "PrivateBytes" (memory) registered, the header above resolves to columns
    3 and 6, and the header "Time,,,,,," throws.
  */
  method SeriesFilterExamples() returns (resolved: seq<Series>, okFound: bool, okEmpty: bool)
    ensures okFound && resolved == [Series(Default, "%ProcessorTime", 3), Series(Memory, "PrivateBytes", 6)]
    ensures !okEmpty
  {
    var f := new SeriesFilter();
    f.AddDesiredSeries("%ProcessorTime", Default);
    f.AddDesiredSeries("PrivateBytes", Memory);
    TestHeadersSplit();
    ResolveTestHeader();
    ResolveEmptyHeader();
    okFound := f.InitializeWithHeader(Join(TestHeaderColumns, ","));
    resolved := f.series;

    var g := new SeriesFilter();
    g.AddDesiredSeries("%ProcessorTime", Default);
    g.AddDesiredSeries("PrivateBytes", Memory);
    var empties := ["Time", "", "", "", "", "", ""];
    okEmpty := g.InitializeWithHeader(Join(empties, ","));
  }

  /** A second call appends the same series again: the caller has to make sure it initializes once. */
  method InitializeTwice(desired: seq<DesiredSeries>, headerLine: string) returns (first: seq<Series>, second: seq<Series>)
    ensures second == first + first
    ensures first == Resolve(desired, Split(headerLine, {','}))
  {
    var f := new SeriesFilter();
    for i := 0 to |desired|
      invariant f.desiredSeries == desired[..i] && f.series == []
    {
      assert desired[..i + 1] == desired[..i] + [desired[i]];
      f.AddDesiredSeries(desired[i].name, desired[i].kind);
    }
    assert desired[..|desired|] == desired;
    var ok := f.InitializeWithHeader(headerLine);
    first := f.series;
    ok := f.InitializeWithHeader(headerLine);
    second := f.series;
  }
}
