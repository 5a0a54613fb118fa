/**
  The building blocks of the earlier Python implementation (`plot_complus.py`),
  modelled apart from the C# ones so that the two can be compared: the
  transforms read integers with `int()`, the series filter takes its
  preference at construction, the process filter searches for each piece as a
  regular-expression group, and a process keeps its id as text and raises
  `ValueError` for a `Name(Id)` field with fewer than two parentheses.
*/
module PythonComponents {
  import opened Wrappers
  import opened Strings
  import opened Numbers
  import opened SeriesTypes
  import opened SeriesFilters
  import opened ProcessFilters
  import opened Processes
  import LogParsers

  /** The exceptions that leave `parse_logs` in the Python implementation. */
  datatype PyError =
    | UsageError  // the first header resolves no series
    | ValueError  // a `Name(Id)` field with fewer than two parentheses
    | IndexError  // a data row shorter than a resolved column
    | IOError     // the empty path names the working directory, which cannot be opened as a file

  // ---------------------------------------------------------------- transforms

  /** `int(value)`, or 0 where it raises; `None` stands for Python's `None`. */
  function IntOrZero(value: Option<string>): (n: int)
    ensures value.Some? && ParseInteger(value.value).Some? ==> n == ParseInteger(value.value).value
    ensures value.None? || ParseInteger(value.value).None? ==> n == 0
  {
    match value
    case None => 0
    case Some(s) =>
      match ParseInteger(s)
      case Some(v) => v
      case None => 0
  }

  /** `transform(value)` of `DefaultSeries` (the integer) and `MemorySeries` (the integer in millions). */
  function PyTransform(kind: SeriesKind, value: Option<string>): real
  {
    match kind
    case Default => IntOrZero(value) as real
    case Memory => IntOrZero(value) as real / 1000000.0
  }

  /** On numerals, the Python transforms give what the C# ones give. */
  lemma PyTransformAgrees(s: Series, value: Option<string>)
    ensures PyTransform(s.kind, value) == s.Transform(value)
  {
  }

  /** The doctests of both transforms. */
  lemma PyTransformExamples()
    ensures PyTransform(Default, Some("10")) == 10.0
    ensures PyTransform(Default, Some("")) == 0.0 && PyTransform(Default, None) == 0.0
    ensures PyTransform(Memory, Some("12345678")) == 12.345678
    ensures PyTransform(Memory, Some("0")) == 0.0 && PyTransform(Memory, Some("")) == 0.0
  {
    TransformExamples();
    PyTransformAgrees(Series(Default, "%ProcessorTime", 3), Some("10"));
    PyTransformAgrees(Series(Default, "%ProcessorTime", 3), Some(""));
    PyTransformAgrees(Series(Memory, "PrivateBytes", 6), Some("12345678"));
    PyTransformAgrees(Series(Memory, "PrivateBytes", 6), Some("0"));
  }

  // ------------------------------------------------------------- series filter

  /** `SeriesFilter(user_preference)`: the preference is fixed at construction, `initialize` appends to `series`. */
  class PySeriesFilter {
    const userDesiredSeries: seq<DesiredSeries>
    var series: seq<Series>

    constructor (userPreference: seq<DesiredSeries>)
      ensures userDesiredSeries == userPreference && series == []
    {
      userDesiredSeries := userPreference;
      series := [];
    }

    /**
      `initialize(header)`: each desired series bound to the first column of
      its name, in preference order; `ok` is false where it raises `UsageError`.
    */
    method Initialize(header: seq<string>) returns (ok: bool)
      modifies this`series
      ensures series == old(series) + Resolve(userDesiredSeries, header)
      ensures ok <==> series != []
    {
      var headerLength := |header|;
      var d := 0;
      while d < |userDesiredSeries|
        invariant 0 <= d <= |userDesiredSeries|
        invariant series == old(series) + Resolve(userDesiredSeries[..d], header)
      {
        var desired := userDesiredSeries[d];
        ResolveStep(userDesiredSeries, d, header);
        var i := 0;
        while i < headerLength
          invariant 0 <= i <= headerLength
          invariant forall j :: 0 <= j < i ==> header[j] != desired.name
          invariant series == old(series) + Resolve(userDesiredSeries[..d], header)
        {
          if desired.name == header[i] {
            FirstIndexIs(header, desired.name, i);
            series := series + [Series(desired.kind, desired.name, i)];
            break;
          }
          i := i + 1;
        }
        d := d + 1;
      }
      assert userDesiredSeries[..d] == userDesiredSeries;
      ok := |series| != 0;
    }
  }

  /** The preference of the doctests. */
  const Preference: seq<DesiredSeries> := [DesiredSeries("%ProcessorTime", Default), DesiredSeries("PrivateBytes", Memory)]

  /**
    The doctests of `SeriesFilter`: the full header binds columns 3 and 6, a
    header with only "PrivateBytes" (column 2) is accepted, one with neither raises.
  */
  method PySeriesFilterExamples() returns (full: seq<Series>, partial: seq<Series>, okFull: bool, okPartial: bool, okNone: bool)
    ensures okFull && full == [Series(Default, "%ProcessorTime", 3), Series(Memory, "PrivateBytes", 6)]
    ensures okPartial && partial == [Series(Memory, "PrivateBytes", 2)]
    ensures !okNone
  {
    var none := ["Time", "", "", "", "", "", ""];
    var some := ["Time", "", "PrivateBytes", "", "", "", ""];
    ResolveTestHeader();
    ResolveEmptyHeader();
    ResolveTwo(Preference[0], Preference[1], some);
    FirstIndexIs(some, "PrivateBytes", 2);
    assert "%ProcessorTime" !in some;
    assert Preference == [Preference[0], Preference[1]];

    var f := new PySeriesFilter(Preference);
    okFull := f.Initialize(TestHeaderColumns);
    full := f.series;
    var g := new PySeriesFilter(Preference);
    okPartial := g.Initialize(some);
    partial := g.series;
    var h := new PySeriesFilter(Preference);
    okNone := h.Initialize(none);
  }

  // ----------------------------------------------------------- process filters

  /**
    `AllProcesses`, or `ProcessFilter` holding the comma-separated pieces of
    its argument, each compiled as the group "(piece)+" of one
    case-insensitive regular expression.
  */
  datatype PyProcessFilter = PyAllProcesses | PyPatternFilter(pieces: seq<string>)

  function NewPyProcessFilter(namePatterns: string): PyProcessFilter
  {
    PyPatternFilter(Split(namePatterns, {','}))
  }

  /**
    `process_name in f`: a search for "(piece)+" matches exactly where the
    piece itself occurs, so the filter asks whether some piece occurs in the
    name, ignoring case.
  */
  predicate PyContains(f: PyProcessFilter, name: string)
  {
    match f
    case PyAllProcesses => true
    case PyPatternFilter(pieces) => AnyOccurs(pieces, name)
  }

  /** For literal patterns the two programs' filters accept the same names. */
  lemma PyFilterAgrees(patterns: string, name: string)
    requires NoneIn(patterns, {'|'})
    ensures PyContains(NewPyProcessFilter(patterns), name) <==> Contains(NewProcessFilter(patterns), name)
    ensures PyContains(PyAllProcesses, name) && Contains(AllProcesses, name)
  {
    ContainsIffSomePieceOccurs(patterns, name);
  }

  /**
    The doctest built from "UserInfo,Session" (written as its two pieces
    around the comma); the names it accepts are written as the pieces around
    the word they contain.
  */
  lemma PyFilterExamples()
    ensures PyContains(NewPyProcessFilter("UserInfo" + "," + "Session"), "RBCWS" + "UserInfo" + "")
    ensures PyContains(NewPyProcessFilter("UserInfo" + "," + "Session"), "Some " + "Session" + " Server")
    ensures !PyContains(NewPyProcessFilter("UserInfo" + "," + "Session"), "Quake")
    ensures !PyContains(NewPyProcessFilter("UserInfo" + "," + "Session"), "")
  {
    PyTestFilter("RBCWS" + "UserInfo" + "");
    PyTestFilter("Some " + "Session" + " Server");
    PyTestFilter("Quake");
    PyTestFilter("");
    assert Occurs("userinfo", Lower("RBCWS" + "UserInfo" + "")) by {
      LowerUserInfo();
      LowerAppend("RBCWS" + "UserInfo", "");
      LowerAppend("RBCWS", "UserInfo");
      OccursInMiddle(Lower("RBCWS"), "userinfo", Lower(""));
    }
    assert Occurs("session", Lower("Some " + "Session" + " Server")) by {
      LowerSession();
      LowerAppend("Some " + "Session", " Server");
      LowerAppend("Some ", "Session");
      OccursInMiddle(Lower("Some "), "session", Lower(" Server"));
    }
    OccursNoLongerThan("session", Lower("Quake"));
    OccursNoLongerThan("userinfo", Lower("Quake"));
    OccursNoLongerThan("session", Lower(""));
    OccursNoLongerThan("userinfo", Lower(""));
  }

  /** The filter of the examples accepts exactly the names holding either word, in any case. */
  lemma PyTestFilter(name: string)
    ensures PyContains(NewPyProcessFilter("UserInfo" + "," + "Session"), name)
        <==> Occurs("userinfo", Lower(name)) || Occurs("session", Lower(name))
  {
    var patterns := "UserInfo" + "," + "Session";
    assert NoneIn(patterns, {'|'}) by {
      forall i | 0 <= i < |patterns| ensures patterns[i] !in {'|'} {
        if i < 8 { assert patterns[i] == "UserInfo"[i]; }
        else if i > 8 { assert patterns[i] == "Session"[i - 9]; }
      }
    }
    LowerSession();
    LowerUserInfo();
    PyFilterAgrees(patterns, name);
    TwoPatternFilter("UserInfo", "Session", name);
  }

  // ------------------------------------------------------------------ process

  /**
    `re.split("[()]", s, maxsplit=2)` unpacked into three names: the name
    and the id text, or `ValueError` when `s` has fewer than two parentheses
    (too few pieces to unpack).
  */
  function PySplitNameAndId(nameAndId: string): (r: Result<(string, string), PyError>)
    ensures r.Success? <==> CountIn(nameAndId, Parens) >= 2
    ensures r.Failure? ==> r.error == ValueError
  {
    var pieces := Split(nameAndId, Parens);
    if |pieces| >= 3 then Success((pieces[0], pieces[1])) else Failure(ValueError)
  }

  /**
    Where the Python constructor succeeds it finds the name the C# one finds,
    and the C# id is the Python id text read by `int.TryParse`.
  */
  lemma PyNameAndIdAgrees(nameAndId: string)
    requires PySplitNameAndId(nameAndId).Success?
    ensures PySplitNameAndId(nameAndId).value.0 == NameOf(nameAndId)
    ensures IdOf(nameAndId) == TryParseInt32(PySplitNameAndId(nameAndId).value.1)
  {
  }

  /** A field without parentheses: the C# constructor takes it as the name with id 0, the Python one raises. */
  lemma NoParenthesesDiffers(nameAndId: string)
    requires NoneIn(nameAndId, Parens)
    ensures PySplitNameAndId(nameAndId) == Failure(ValueError)
    ensures NameOf(nameAndId) == nameAndId && IdOf(nameAndId) == 0
  {
    CountInNone(nameAndId, Parens);
    SplitWord(nameAndId, Parens);
  }

  /** The doctests of the constructor, the `Name(Id)` text written as name, '(', id, ')'. */
  lemma PySplitExamples()
    ensures PySplitNameAndId("RBCWSSession" + "(" + "1234" + ")") == Success(("RBCWSSession", "1234"))
    ensures PySplitNameAndId("()") == Success(("", ""))
  {
    var digits := "1234";
    assert NoneIn(digits, Parens);
    SplitAfterWord(digits, ')', "", Parens);
    assert digits + [')'] + "" == digits + ")";
    SplitAfterWord("RBCWSSession", '(', digits + ")", Parens);
    assert "RBCWSSession" + ['('] + (digits + ")") == "RBCWSSession" + "(" + digits + ")";
    assert Split("()", Parens) == ["", "", ""];
  }

  /** `Process`: the id stays text; series are attributes set by name, modelled as a map. */
  class PyProcess {
    const processName: string
    const processId: string
    const logFilename: string
    const id: string
    var timeSeries: seq<string>
    var series: map<string, seq<real>>

    /** The constructor where the split succeeds; its `ValueError` is `PySplitNameAndId`'s failure. */
    constructor (nameAndId: string, logFilename: string)
      requires PySplitNameAndId(nameAndId).Success?
      ensures (processName, processId) == PySplitNameAndId(nameAndId).value
      ensures this.logFilename == logFilename && id == ComposeId(nameAndId, logFilename)
      ensures timeSeries == [] && series == map[]
    {
      var parts := PySplitNameAndId(nameAndId).value;
      processName := parts.0;
      processId := parts.1;
      this.logFilename := logFilename;
      id := ComposeId(nameAndId, logFilename);
      timeSeries := [];
      series := map[];
    }

    /** `set(name, value)`: appends to the series, creating it when absent; the others stay. */
    method Set(seriesName: string, value: real)
      modifies this`series
      ensures series == SetValue(old(series), seriesName, value)
    {
      var valList := [];
      if seriesName in series {
        valList := series[seriesName];
      }
      series := series[seriesName := valList + [value]];
    }

    /** `get(name)`: the values; `None` where `getattr` raises. */
    function Get(seriesName: string): (r: Option<seq<real>>)
      reads this
      ensures r.Some? <==> seriesName in series
      ensures r.Some? ==> r.value == series[seriesName]
    {
      if seriesName in series then Some(series[seriesName]) else None
    }
  }

  /** The doctest of `Process`: values come back in call order, and a second series leaves the first alone. */
  method PyProcessExample() returns (name: string, pid: string, id: string, bytes: Option<seq<real>>, cpu: Option<seq<real>>)
    ensures name == "RBCWSSession" && pid == "1234"
    ensures id == "RBCWSSession" + "(" + "1234" + ")" + " " + "test_log.txt"
    ensures bytes == Some([1000.0, 2000.0, 3000.0]) && cpu == Some([40.0])
  {
    PySplitExamples();
    var p := new PyProcess("RBCWSSession" + "(" + "1234" + ")", "test_log.txt");
    p.Set("PrivateBytes", 1000.0);
    assert p.series["PrivateBytes"] == [1000.0] && "%ProcessorTime" !in p.series;
    p.Set("PrivateBytes", 2000.0);
    assert p.series["PrivateBytes"] == [1000.0, 2000.0] && "%ProcessorTime" !in p.series;
    p.Set("PrivateBytes", 3000.0);
    assert p.series["PrivateBytes"] == [1000.0, 2000.0, 3000.0] && "%ProcessorTime" !in p.series;
    p.Set("%ProcessorTime", 40.0);
    assert p.series["%ProcessorTime"] == [40.0];
    name, pid, id := p.processName, p.processId, p.id;
    bytes := p.Get("PrivateBytes");
    cpu := p.Get("%ProcessorTime");
  }
}
