/**
  The smoke test of the log parser, stated on the pure model: one log file
  with two banner lines, a blank line, the header, and data lines of five
  processes, read with "%ProcessorTime" (default) and "PrivateBytes"
  (memory) registered and the filter "session,userinfo". Each line is written
  as its comma-separated fields.
*/
module LogParserExample {
  import opened Wrappers
  import opened Strings
  import opened Numbers
  import opened SeriesTypes
  import opened SeriesFilters
  import opened ProcessFilters
  import opened Processes
  import opened LogParsers
  import opened LogParserProperties

  const TestDesired: seq<DesiredSeries> :=
    [DesiredSeries("%ProcessorTime", Default), DesiredSeries("PrivateBytes", Memory)]

  const TestSeries: seq<Series> :=
    [Series(Default, "%ProcessorTime", 3), Series(Memory, "PrivateBytes", 6)]

  function TestFilter(): ProcessFilter
  {
    NewProcessFilter("session" + "," + "userinfo")
  }

  const Banner1: string := "Microsoft (R) Windows " + "Script Host Version 5.6"
  const Banner2: string := "Copyright (C) Microsoft " + "Corporation 1996-2001. " + "All rights reserved."
  const HeaderRow: seq<string> := ["Time", "CN", "PN(ID)", "%ProcessorTime", "%UT", "TC", "PrivateBytes", "WS"]
  const IdleRow: seq<string> := ["4/3/2007 10:00:37 AM", ".", "Idle(0)", "100", "0", "8", "0", "16384"]
  const SystemRow: seq<string> := ["4/3/2007 10:00:37 AM", ".", "System(4)", "0", "0", "110", "28672", "28672"]
  const SessionRow1: seq<string> := ["4/3/2007 10:00:37 AM", ".", "RBCWSSession(6520)", "23", "0", "31", "30208000", "37974016"]
  const BlankRow: seq<string> := ["", "", "", "", "", "", "", ""]
  const SessionRow2: seq<string> := ["4/3/2007 10:00:42 AM", ".", "RBCWSSession(6520)", "24", "0", "31", "25071616", "34078720"]
  const UserInfoRow: seq<string> := ["4/3/2007 10:00:42 AM", ".", "RBCWSUserInfo(10496)", "11", "0", "32", "13414400", "21475328"]
  const SessionRow3: seq<string> := ["4/4/2007", ".", "RBCWSSession(6520)", "25", "0", "31", "25214976", "34222080"]

  /** The first six lines of the test file: the banner, a blank line, the header and two rows the filter drops. */
  function Prelude(): seq<string>
  {
    [Banner1, Banner2, "", Join(HeaderRow, ","), Join(IdleRow, ","), Join(SystemRow, ",")]
  }

  /** The last five lines: rows of the two kept processes around a row of empty fields. */
  function DataLines(): seq<string>
  {
    [Join(SessionRow1, ","), Join(BlankRow, ","), Join(SessionRow2, ","), Join(UserInfoRow, ","), Join(SessionRow3, ",")]
  }

  /** The eleven lines of the test file. */
  function TestLines(): seq<string>
  {
    Prelude() + DataLines()
  }

  /** Lower-casing keeps an occurrence: a case-sensitive match is also a case-insensitive one. */
  lemma {:induction false} OccursLower(p: string, s: string)
    requires Occurs(p, s)
    ensures Occurs(Lower(p), Lower(s))
    decreases |s|
  {
    if p <= s {
      assert Lower(p) == Lower(s)[..|p|];
    } else {
      OccursLower(p, s[1..]);
      assert Lower(s)[1..] == Lower(s[1..]);
    }
  }

  lemma SessionOccurs()
    ensures Occurs("session", Lower("RBCWSSession(6520)"))
  {
    OccursInMiddle("RBCWS", "Session", "(6520)");
    assert "RBCWS" + "Session" + "(6520)" == "RBCWSSession(6520)";
    OccursLower("Session", "RBCWSSession(6520)");
    LowerSession();
  }

  lemma UserInfoOccurs()
    ensures Occurs("userinfo", Lower("RBCWSUserInfo(10496)"))
  {
    OccursInMiddle("RBCWS", "UserInfo", "(10496)");
    assert "RBCWS" + "UserInfo" + "(10496)" == "RBCWSUserInfo(10496)";
    OccursLower("UserInfo", "RBCWSUserInfo(10496)");
    LowerUserInfo();
  }

  /** "idle(0)" does not start with 's' or 'u', and what follows is too short. */
  lemma IdleMatchesNeither()
    ensures !Occurs("session", Lower("Idle(0)")) && !Occurs("userinfo", Lower("Idle(0)"))
  {
    var t := Lower("Idle(0)");
    assert t[0] == 'i';
    OccursNoLongerThan("session", t[1..]);
    OccursNoLongerThan("userinfo", t);
  }

  /** "system(4)" has 's' only at 0 and 2, followed by 'y' and 't', and no 'u' before its last seven characters. */
  lemma SystemMatchesNeither()
    ensures !Occurs("session", Lower("System(4)")) && !Occurs("userinfo", Lower("System(4)"))
  {
    var t := Lower("System(4)");
    assert t[0] == 's' && t[1] == 'y' && t[2] == 's' && t[3] == 't';
    assert t[1..][0] == 'y' && t[1..][1..][0] == 's' && t[1..][1..][1] == 't';
    OccursNoLongerThan("session", t[1..][1..][1..]);
    OccursNoLongerThan("userinfo", t[1..][1..]);
  }

  /** The test's filter keeps the two RBCWS processes. */
  lemma TestFilterAccepts()
    ensures Contains(TestFilter(), "RBCWSSession(6520)") && Contains(TestFilter(), "RBCWSUserInfo(10496)")
  {
    TwoPatternFilter("session", "userinfo", "RBCWSSession(6520)");
    TwoPatternFilter("session", "userinfo", "RBCWSUserInfo(10496)");
    LowerSessionUserInfo();
    SessionOccurs();
    UserInfoOccurs();
  }

  lemma LowerSessionUserInfo()
    ensures Lower("session") == "session" && Lower("userinfo") == "userinfo"
  {
  }

  /** ... and drops Idle, System and the line without a name. */
  lemma TestFilterRejects()
    ensures !Contains(TestFilter(), "Idle(0)") && !Contains(TestFilter(), "System(4)") && !Contains(TestFilter(), "")
  {
    TwoPatternFilter("session", "userinfo", "Idle(0)");
    TwoPatternFilter("session", "userinfo", "System(4)");
    TwoPatternFilter("session", "userinfo", "");
    LowerSessionUserInfo();
    IdleMatchesNeither();
    SystemMatchesNeither();
    OccursInEmpty("session");
    OccursInEmpty("userinfo");
  }

  lemma NoneInConcat(a: string, b: string, seps: set<char>)
    requires NoneIn(a, seps) && NoneIn(b, seps)
    ensures NoneIn(a + b, seps)
  {
  }

  lemma Banner1CommaFree()
    ensures NoneIn(Banner1, {','})
  {
    assert NoneIn("Microsoft (R) Windows ", {','});
    assert NoneIn("Script Host Version 5.6", {','});
    NoneInConcat("Microsoft (R) Windows ", "Script Host Version 5.6", {','});
  }

  lemma Banner2CommaFree()
    ensures NoneIn(Banner2, {','})
  {
    assert NoneIn("Copyright (C) Microsoft ", {','});
    assert NoneIn("Corporation 1996-2001. ", {','});
    assert NoneIn("All rights reserved.", {','});
    NoneInConcat("Copyright (C) Microsoft ", "Corporation 1996-2001. ", {','});
    NoneInConcat("Copyright (C) Microsoft " + "Corporation 1996-2001. ", "All rights reserved.", {','});
  }

  /** The banner lines and the blank line are one field each, fewer than four. */
  lemma ShortLinesSplit()
    ensures Split(Banner1, {','}) == [Banner1] && Split(Banner2, {','}) == [Banner2] && Split("", {','}) == [""]
  {
    Banner1CommaFree();
    Banner2CommaFree();
    SplitWord(Banner1, {','});
    SplitWord(Banner2, {','});
  }

  /** A row of comma-free fields splits back into its fields. */
  lemma RowSplit(row: seq<string>)
    requires |row| >= 1 && forall k :: 0 <= k < |row| ==> ',' !in row[k]
    ensures Split(Join(row, ","), {','}) == row
  {
    assert "," == [','];
    forall k | 0 <= k < |row| ensures NoneIn(row[k], {','}) {
      assert forall i :: 0 <= i < |row[k]| ==> row[k][i] != ',';
    }
    SplitJoin(row, ',');
  }

  lemma HeaderRowSplit()
    ensures Split(Join(HeaderRow, ","), {','}) == HeaderRow
  {
    RowSplit(HeaderRow);
  }

  lemma IdleRowSplit()
    ensures Split(Join(IdleRow, ","), {','}) == IdleRow
  {
    RowSplit(IdleRow);
  }

  lemma SystemRowSplit()
    ensures Split(Join(SystemRow, ","), {','}) == SystemRow
  {
    RowSplit(SystemRow);
  }

  lemma BlankRowSplit()
    ensures Split(Join(BlankRow, ","), {','}) == BlankRow
  {
    RowSplit(BlankRow);
  }

  lemma SessionRow1Split()
    ensures Split(Join(SessionRow1, ","), {','}) == SessionRow1
  {
    RowSplit(SessionRow1);
  }

  lemma SessionRow2Split()
    ensures Split(Join(SessionRow2, ","), {','}) == SessionRow2
  {
    RowSplit(SessionRow2);
  }

  lemma SessionRow3Split()
    ensures Split(Join(SessionRow3, ","), {','}) == SessionRow3
  {
    RowSplit(SessionRow3);
  }

  lemma UserInfoRowSplit()
    ensures Split(Join(UserInfoRow, ","), {','}) == UserInfoRow
  {
    RowSplit(UserInfoRow);
  }

  /** The header of the test resolves "%ProcessorTime" at column 3 and "PrivateBytes" at column 6. */
  lemma ResolveHeaderRow()
    ensures Resolve(TestDesired, HeaderRow) == TestSeries
  {
    ResolveTwo(TestDesired[0], TestDesired[1], HeaderRow);
    assert TestDesired == [TestDesired[0], TestDesired[1]];
    ProcessorTimeInHeaderRow();
    PrivateBytesInHeaderRow();
  }

  lemma ProcessorTimeInHeaderRow()
    ensures ResolveOne(DesiredSeries("%ProcessorTime", Default), HeaderRow) == [Series(Default, "%ProcessorTime", 3)]
  {
    FirstIndexIs(HeaderRow, "%ProcessorTime", 3);
  }

  lemma PrivateBytesInHeaderRow()
    ensures ResolveOne(DesiredSeries("PrivateBytes", Memory), HeaderRow) == [Series(Memory, "PrivateBytes", 6)]
  {
    FirstIndexIs(HeaderRow, "PrivateBytes", 6);
  }

  /** The state a file starts from when no header has been seen. */
  const Start: FileState := FileState(false, [], map[], [])

  /** The state after the test's header: flag up, the two series resolved, no process yet. */
  const AfterHeader: FileState := FileState(true, TestSeries, map[], [])

  lemma WholePrefix(lines: seq<string>)
    ensures lines[..|lines|] == lines
  {
  }

  /** One more line continues from the state the earlier lines reached. */
  lemma ParseStep(st: FileState, lines: seq<string>, k: nat, mid: FileState, next: FileState, path: string,
                  filter: ProcessFilter)
    requires k < |lines|
    requires ParseLines(st, lines[..k], path, TestDesired, filter) == Success(mid)
    requires ParseLine(mid, lines[k], path, TestDesired, filter) == Success(next)
    ensures ParseLines(st, lines[..k + 1], path, TestDesired, filter) == Success(next)
  {
    assert lines[..k + 1][..k] == lines[..k];
  }

  /** The header raises the flag and resolves the two series. */
  lemma HeaderLineParsed(line: string, header: seq<string>, path: string, filter: ProcessFilter)
    requires Split(line, {','}) == header && |header| >= MinFields && header[0] == HeaderTag
    requires Resolve(TestDesired, header) == TestSeries
    ensures ParseLine(Start, line, path, TestDesired, filter) == Success(AfterHeader)
  {
    assert Start.resolved + TestSeries == TestSeries;
  }

  /** A line of fewer than four fields is skipped. */
  lemma ShortLineSkipped(st: FileState, line: string, path: string, filter: ProcessFilter)
    requires |Split(line, {','})| < MinFields
    ensures ParseLine(st, line, path, TestDesired, filter) == Success(st)
  {
  }

  /** A data line of a process the filter drops is skipped. */
  lemma FilteredLineSkipped(st: FileState, line: string, row: seq<string>, path: string, filter: ProcessFilter)
    requires DroppedRow(line, row, filter)
    ensures ParseLine(st, line, path, TestDesired, filter) == Success(st)
  {
  }

  /** A data line of a process the filter keeps is handed to `DataLine`. */
  lemma KeptLineIsData(st: FileState, line: string, row: seq<string>, path: string, filter: ProcessFilter)
    requires Split(line, {','}) == row && |row| >= MinFields && row[0] != HeaderTag && Contains(filter, row[2])
    ensures ParseLine(st, line, path, TestDesired, filter) == DataLine(st, row, path)
  {
  }

  /**
    Three skipped lines, the header and two more skipped lines leave the flag
    up, the two series resolved and no process.
  */
  lemma PreludeParsed(lines: seq<string>, path: string, filter: ProcessFilter)
    requires |lines| == 6
    requires ParseLine(Start, lines[0], path, TestDesired, filter) == Success(Start)
    requires ParseLine(Start, lines[1], path, TestDesired, filter) == Success(Start)
    requires ParseLine(Start, lines[2], path, TestDesired, filter) == Success(Start)
    requires ParseLine(Start, lines[3], path, TestDesired, filter) == Success(AfterHeader)
    requires ParseLine(AfterHeader, lines[4], path, TestDesired, filter) == Success(AfterHeader)
    requires ParseLine(AfterHeader, lines[5], path, TestDesired, filter) == Success(AfterHeader)
    ensures ParseLines(Start, lines, path, TestDesired, filter) == Success(AfterHeader)
  {
    assert lines[..0] == [];
    ParseStep(Start, lines, 0, Start, Start, path, filter);
    ParseStep(Start, lines, 1, Start, Start, path, filter);
    ParseStep(Start, lines, 2, Start, Start, path, filter);
    ParseStep(Start, lines, 3, Start, AfterHeader, path, filter);
    ParseStep(Start, lines, 4, AfterHeader, AfterHeader, path, filter);
    ParseStep(Start, lines, 5, AfterHeader, AfterHeader, path, filter);
    WholePrefix(lines);
  }

  /** The value a row gives the "%ProcessorTime" series. */
  function Cpu(row: seq<string>): real
    requires |row| == 8
  {
    TestSeries[0].Transform(Some(row[3]))
  }

  /** The value a row gives the "PrivateBytes" series, in megabytes. */
  function Mem(row: seq<string>): real
    requires |row| == 8
  {
    TestSeries[1].Transform(Some(row[6]))
  }

  /** What the test reads back from a process: name, id, file, timestamps and the two series. */
  predicate Recorded(p: ProcessValue, nameAndId: string, path: string, times: seq<string>, cpu: seq<real>, mem: seq<real>)
  {
    && p.processName == NameOf(nameAndId) && p.processId == IdOf(nameAndId) && p.logFileName == path
    && p.timeSeries == times
    && Lookup(p.series, "%ProcessorTime") == cpu && Lookup(p.series, "PrivateBytes") == mem
  }

  /** With the test's two series resolved, a row appends its CPU value and its memory value. */
  lemma AppendTestValues(series: map<string, seq<real>>, row: seq<string>)
    requires |row| == 8
    ensures InRange(TestSeries, row)
    ensures Lookup(AppendValues(series, TestSeries, row), "%ProcessorTime") == Lookup(series, "%ProcessorTime") + [Cpu(row)]
    ensures Lookup(AppendValues(series, TestSeries, row), "PrivateBytes") == Lookup(series, "PrivateBytes") + [Mem(row)]
  {
    assert TestSeries[..1] == [TestSeries[0]] && TestSeries[..1][..0] == [];
    assert AppendValues(series, TestSeries[..1], row) == SetValue(series, "%ProcessorTime", Cpu(row));
  }

  /** A timed data row of a process not met before: it is added after the others, with one timestamp and one value per series. */
  lemma NewProcessStep(st: FileState, row: seq<string>, path: string)
    requires st.resolved == TestSeries && |row| == 8 && row[0] != "" && ComposeId(row[2], path) !in st.procs
    ensures var id := ComposeId(row[2], path);
      var r := DataLine(st, row, path);
      && r.Success? && r.value.resolved == st.resolved && r.value.order == st.order + [id]
      && r.value.procs == st.procs[id := r.value.procs[id]]
      && Recorded(r.value.procs[id], row[2], path, [row[0]], [Cpu(row)], [Mem(row)])
  {
    var p := NewProcessValue(row[2], path);
    AppendTestValues(p.series, row);
  }

  /** A timed data row of a known process: its timestamp and values are appended; nothing else changes. */
  lemma KnownProcessStep(st: FileState, row: seq<string>, path: string, times: seq<string>, cpu: seq<real>, mem: seq<real>)
    requires st.resolved == TestSeries && |row| == 8 && row[0] != "" && ComposeId(row[2], path) in st.procs
    requires Recorded(st.procs[ComposeId(row[2], path)], row[2], path, times, cpu, mem)
    ensures var id := ComposeId(row[2], path);
      var r := DataLine(st, row, path);
      && r.Success? && r.value.resolved == st.resolved && r.value.order == st.order
      && r.value.procs == st.procs[id := r.value.procs[id]]
      && Recorded(r.value.procs[id], row[2], path, times + [row[0]], cpu + [Cpu(row)], mem + [Mem(row)])
  {
    AppendTestValues(st.procs[ComposeId(row[2], path)].series, row);
  }

  /** A row that is not a header and whose process the filter drops. */
  predicate DroppedRow(line: string, row: seq<string>, filter: ProcessFilter)
  {
    Split(line, {','}) == row && |row| >= MinFields && row[0] != HeaderTag && !Contains(filter, row[2])
  }

  /** A row of a process the filter keeps, with a timestamp. */
  predicate TimedKept(line: string, row: seq<string>, filter: ProcessFilter)
  {
    Split(line, {','}) == row && |row| == 8 && row[0] != "" && row[0] != HeaderTag && Contains(filter, row[2])
  }

  /** A dropped line after a parsed prefix leaves the state as it was. */
  lemma DroppedLineParsed(lines: seq<string>, k: nat, st: FileState, row: seq<string>, path: string, filter: ProcessFilter)
    requires k < |lines| && ParseLines(AfterHeader, lines[..k], path, TestDesired, filter) == Success(st)
    requires DroppedRow(lines[k], row, filter)
    ensures ParseLines(AfterHeader, lines[..k + 1], path, TestDesired, filter) == Success(st)
  {
    FilteredLineSkipped(st, lines[k], row, path, filter);
    ParseStep(AfterHeader, lines, k, st, st, path, filter);
  }

  /** A line of a process not met before, after a parsed prefix: the process is added after the others. */
  lemma NewLineParsed(lines: seq<string>, k: nat, st: FileState, row: seq<string>, path: string, filter: ProcessFilter)
    returns (next: FileState)
    requires k < |lines| && ParseLines(AfterHeader, lines[..k], path, TestDesired, filter) == Success(st)
    requires TimedKept(lines[k], row, filter) && st.resolved == TestSeries && ComposeId(row[2], path) !in st.procs
    ensures ParseLines(AfterHeader, lines[..k + 1], path, TestDesired, filter) == Success(next)
    ensures next.resolved == TestSeries && next.order == st.order + [ComposeId(row[2], path)]
    ensures next.procs == st.procs[ComposeId(row[2], path) := next.procs[ComposeId(row[2], path)]]
    ensures Recorded(next.procs[ComposeId(row[2], path)], row[2], path, [row[0]], [Cpu(row)], [Mem(row)])
  {
    NewProcessStep(st, row, path);
    next := DataLine(st, row, path).value;
    KeptLineIsData(st, lines[k], row, path, filter);
    ParseStep(AfterHeader, lines, k, st, next, path, filter);
  }

  /** A line of a known process, after a parsed prefix: its timestamp and values are appended. */
  lemma KnownLineParsed(lines: seq<string>, k: nat, st: FileState, row: seq<string>, path: string, filter: ProcessFilter,
                        times: seq<string>, cpu: seq<real>, mem: seq<real>)
    returns (next: FileState)
    requires k < |lines| && ParseLines(AfterHeader, lines[..k], path, TestDesired, filter) == Success(st)
    requires TimedKept(lines[k], row, filter) && st.resolved == TestSeries && ComposeId(row[2], path) in st.procs
    requires Recorded(st.procs[ComposeId(row[2], path)], row[2], path, times, cpu, mem)
    ensures ParseLines(AfterHeader, lines[..k + 1], path, TestDesired, filter) == Success(next)
    ensures next.resolved == TestSeries && next.order == st.order && next.procs.Keys == st.procs.Keys
    ensures next.procs == st.procs[ComposeId(row[2], path) := next.procs[ComposeId(row[2], path)]]
    ensures Recorded(next.procs[ComposeId(row[2], path)], row[2], path, times + [row[0]], cpu + [Cpu(row)], mem + [Mem(row)])
  {
    KnownProcessStep(st, row, path, times, cpu, mem);
    next := DataLine(st, row, path).value;
    KeptLineIsData(st, lines[k], row, path, filter);
    ParseStep(AfterHeader, lines, k, st, next, path, filter);
  }

  /** After the header: a line of a kept process and a dropped line leave that one process. */
  lemma OpeningParsed(lines: seq<string>, a: seq<string>, b: seq<string>,
                      path: string, filter: ProcessFilter, other: string) returns (st: FileState)
    requires |lines| >= 2
    requires TimedKept(lines[0], a, filter) && other != ComposeId(a[2], path)
    requires DroppedRow(lines[1], b, filter)
    ensures ParseLines(AfterHeader, lines[..2], path, TestDesired, filter) == Success(st)
    ensures st.resolved == TestSeries && st.order == [ComposeId(a[2], path)]
    ensures ComposeId(a[2], path) in st.procs && other !in st.procs
    ensures Recorded(st.procs[ComposeId(a[2], path)], a[2], path, [a[0]], [Cpu(a)], [Mem(a)])
  {
    assert lines[..0] == [];
    st := NewLineParsed(lines, 0, AfterHeader, a, path, filter);
    DroppedLineParsed(lines, 1, st, b, path, filter);
  }

  /** A second line of the same process follows: it now has two timestamps. */
  lemma FirstProcessParsed(lines: seq<string>, a: seq<string>, b: seq<string>, c: seq<string>,
                           path: string, filter: ProcessFilter, other: string) returns (st: FileState)
    requires |lines| >= 3
    requires TimedKept(lines[0], a, filter) && TimedKept(lines[2], c, filter) && c[2] == a[2]
    requires other != ComposeId(a[2], path)
    requires DroppedRow(lines[1], b, filter)
    ensures ParseLines(AfterHeader, lines[..3], path, TestDesired, filter) == Success(st)
    ensures st.resolved == TestSeries && st.order == [ComposeId(a[2], path)]
    ensures ComposeId(a[2], path) in st.procs && other !in st.procs
    ensures Recorded(st.procs[ComposeId(a[2], path)], a[2], path, [a[0]] + [c[0]], [Cpu(a)] + [Cpu(c)], [Mem(a)] + [Mem(c)])
  {
    var s1 := OpeningParsed(lines, a, b, path, filter, other);
    st := KnownLineParsed(lines, 2, s1, c, path, filter, [a[0]], [Cpu(a)], [Mem(a)]);
  }

  /**
    The outcome of rows `a`, `c`, `e` of one process and `d` of another, met
    after `a`: both processes, in the order first met, with what their rows
    recorded.
  */
  predicate TwoProcesses(r: Result<FileState, ParseError>, a: seq<string>, c: seq<string>, d: seq<string>, e: seq<string>,
                         path: string)
  {
    var first, second := ComposeId(if |a| > 2 then a[2] else "", path), ComposeId(if |d| > 2 then d[2] else "", path);
    && |a| == 8 && |c| == 8 && |d| == 8 && |e| == 8
    && r.Success? && r.value.order == [first] + [second]
    && first in r.value.procs && second in r.value.procs
    && Recorded(r.value.procs[first], a[2], path, [a[0]] + [c[0]] + [e[0]], [Cpu(a)] + [Cpu(c)] + [Cpu(e)],
                [Mem(a)] + [Mem(c)] + [Mem(e)])
    && Recorded(r.value.procs[second], d[2], path, [d[0]], [Cpu(d)], [Mem(d)])
  }

  /**
    Then a line of another kept process and a third line of the first: the
    two processes are kept in the order first met, with three and one
    timestamps and values.
  */
  lemma DataParsed(lines: seq<string>, a: seq<string>, b: seq<string>, c: seq<string>, d: seq<string>, e: seq<string>,
                   path: string, filter: ProcessFilter)
    requires |lines| == 5
    requires TimedKept(lines[0], a, filter) && TimedKept(lines[2], c, filter)
    requires TimedKept(lines[3], d, filter) && TimedKept(lines[4], e, filter)
    requires DroppedRow(lines[1], b, filter)
    requires c[2] == a[2] && e[2] == a[2] && ComposeId(d[2], path) != ComposeId(a[2], path)
    ensures TwoProcesses(ParseLines(AfterHeader, lines, path, TestDesired, filter), a, c, d, e, path)
  {
    var first, second := ComposeId(a[2], path), ComposeId(d[2], path);
    var s2 := FirstProcessParsed(lines, a, b, c, path, filter, second);
    var s3 := NewLineParsed(lines, 3, s2, d, path, filter);
    var s4 := KnownLineParsed(lines, 4, s3, e, path, filter, [a[0]] + [c[0]], [Cpu(a)] + [Cpu(c)], [Mem(a)] + [Mem(c)]);
    assert s4.procs[second] == s3.procs[second];
    WholePrefix(lines);
    assert first == ComposeId(if |a| > 2 then a[2] else "", path) && second == ComposeId(if |d| > 2 then d[2] else "", path);
  }

  lemma BannerSkipped(path: string)
    ensures ParseLine(Start, Banner1, path, TestDesired, TestFilter()) == Success(Start)
    ensures ParseLine(Start, Banner2, path, TestDesired, TestFilter()) == Success(Start)
    ensures ParseLine(Start, "", path, TestDesired, TestFilter()) == Success(Start)
  {
    ShortLinesSplit();
    ShortLineSkipped(Start, Banner1, path, TestFilter());
    ShortLineSkipped(Start, Banner2, path, TestFilter());
    ShortLineSkipped(Start, "", path, TestFilter());
  }

  lemma HeaderRowParsed(path: string)
    ensures ParseLine(Start, Join(HeaderRow, ","), path, TestDesired, TestFilter()) == Success(AfterHeader)
  {
    HeaderRowSplit();
    ResolveHeaderRow();
    HeaderLineParsed(Join(HeaderRow, ","), HeaderRow, path, TestFilter());
  }

  lemma IdleRowDropped()
    ensures DroppedRow(Join(IdleRow, ","), IdleRow, TestFilter())
  {
    var row := IdleRow;
    assert row[0] != HeaderTag && row[2] == "Idle(0)";
    TestFilterRejects();
    IdleRowSplit();
  }

  lemma SystemRowDropped()
    ensures DroppedRow(Join(SystemRow, ","), SystemRow, TestFilter())
  {
    var row := SystemRow;
    assert row[0] != HeaderTag && row[2] == "System(4)";
    TestFilterRejects();
    SystemRowSplit();
  }

  lemma IdleRowSkipped(path: string)
    ensures ParseLine(AfterHeader, Join(IdleRow, ","), path, TestDesired, TestFilter()) == Success(AfterHeader)
  {
    IdleRowDropped();
    FilteredLineSkipped(AfterHeader, Join(IdleRow, ","), IdleRow, path, TestFilter());
  }

  lemma SystemRowSkipped(path: string)
    ensures ParseLine(AfterHeader, Join(SystemRow, ","), path, TestDesired, TestFilter()) == Success(AfterHeader)
  {
    SystemRowDropped();
    FilteredLineSkipped(AfterHeader, Join(SystemRow, ","), SystemRow, path, TestFilter());
  }

  /** The first six lines leave the flag up, the two series resolved and no process. */
  lemma PreludeLinesParsed(path: string)
    ensures ParseLines(Start, Prelude(), path, TestDesired, TestFilter()) == Success(AfterHeader)
  {
    var lines := Prelude();
    assert lines[0] == Banner1 && lines[1] == Banner2 && lines[2] == "";
    assert lines[3] == Join(HeaderRow, ",") && lines[4] == Join(IdleRow, ",") && lines[5] == Join(SystemRow, ",");
    BannerSkipped(path);
    HeaderRowParsed(path);
    IdleRowSkipped(path);
    SystemRowSkipped(path);
    PreludeParsed(lines, path, TestFilter());
  }

  lemma SessionRow1Kept()
    ensures TimedKept(Join(SessionRow1, ","), SessionRow1, TestFilter())
  {
    var row := SessionRow1;
    assert |row| == 8 && row[0] != "" && row[0] != HeaderTag && row[2] == "RBCWSSession(6520)";
    TestFilterAccepts();
    SessionRow1Split();
  }

  lemma SessionRow2Kept()
    ensures TimedKept(Join(SessionRow2, ","), SessionRow2, TestFilter())
  {
    var row := SessionRow2;
    assert |row| == 8 && row[0] != "" && row[0] != HeaderTag && row[2] == "RBCWSSession(6520)";
    TestFilterAccepts();
    SessionRow2Split();
  }

  lemma SessionRow3Kept()
    ensures TimedKept(Join(SessionRow3, ","), SessionRow3, TestFilter())
  {
    var row := SessionRow3;
    assert |row| == 8 && row[0] != "" && row[0] != HeaderTag && row[2] == "RBCWSSession(6520)";
    TestFilterAccepts();
    SessionRow3Split();
  }

  lemma UserInfoRowKept()
    ensures TimedKept(Join(UserInfoRow, ","), UserInfoRow, TestFilter())
  {
    var row := UserInfoRow;
    assert |row| == 8 && row[0] != "" && row[0] != HeaderTag && row[2] == "RBCWSUserInfo(10496)";
    TestFilterAccepts();
    UserInfoRowSplit();
  }

  /** The row of empty fields is not a header, and the filter drops its empty name. */
  lemma BlankRowDropped()
    ensures DroppedRow(Join(BlankRow, ","), BlankRow, TestFilter())
  {
    var row := BlankRow;
    assert row[0] != HeaderTag && row[2] == "";
    TestFilterRejects();
    BlankRowSplit();
  }

  /** The two kept processes of one file get different keys: they differ at their sixth character. */
  lemma TestIdsDiffer(path: string)
    ensures ComposeId(UserInfoRow[2], path) != ComposeId(SessionRow1[2], path)
  {
    assert ComposeId(UserInfoRow[2], path)[5] == 'U';
    assert ComposeId(SessionRow1[2], path)[5] == 'S';
  }

  /** The last five lines: the session process with three rows and the user-info process with one. */
  lemma DataLinesParsed(path: string)
    ensures TwoProcesses(ParseLines(AfterHeader, DataLines(), path, TestDesired, TestFilter()),
                         SessionRow1, SessionRow2, UserInfoRow, SessionRow3, path)
  {
    var lines := DataLines();
    assert lines[0] == Join(SessionRow1, ",") && lines[1] == Join(BlankRow, ",") && lines[2] == Join(SessionRow2, ",");
    assert lines[3] == Join(UserInfoRow, ",") && lines[4] == Join(SessionRow3, ",");
    assert SessionRow2[2] == SessionRow1[2] && SessionRow3[2] == SessionRow1[2];
    SessionRow1Kept();
    SessionRow2Kept();
    SessionRow3Kept();
    UserInfoRowKept();
    BlankRowDropped();
    TestIdsDiffer(path);
    DataParsed(lines, SessionRow1, BlankRow, SessionRow2, UserInfoRow, SessionRow3, path, TestFilter());
  }

  /** The file system of the test: the test file under `path`, read to its end. */
  function TestFiles(path: string): FileSystem
  {
    map[path := FileEntry(TestLines(), false)]
  }

  /** The whole file continues from the state its first six lines reach. */
  lemma TestLinesParsed(path: string)
    ensures ParseLines(Start, TestLines(), path, TestDesired, TestFilter()) ==
            ParseLines(AfterHeader, DataLines(), path, TestDesired, TestFilter())
  {
    PreludeLinesParsed(path);
    ParseLinesAppend(Start, Prelude(), DataLines(), AfterHeader, path, TestDesired, TestFilter());
  }

  /** Two keys present in the map give their two values, in that order. */
  lemma ValuesInOrderOfTwo(procs: map<string, ProcessValue>, first: string, second: string)
    requires first in procs && second in procs
    ensures ValuesInOrder(procs, [first] + [second]) == [procs[first], procs[second]]
  {
    var two := [first] + [second];
    assert two[..|two| - 1] == [first] && two[|two| - 1] == second;
    assert [first][..0] == [] && [first][0] == first;
    assert ValuesInOrder(procs, [first]) == [procs[first]];
  }

  /** A single file that parses to `st` yields the processes of `st` in the order first met, and no message. */
  lemma SingleFileParsed(path: string, lines: seq<string>, st: FileState, filter: ProcessFilter)
    requires path != ""
    requires ParseLines(Start, lines, path, TestDesired, filter) == Success(st)
    ensures ParseFiles(false, [], [path], map[path := FileEntry(lines, false)], TestDesired, filter) ==
            Success(AllOutcome(st.verified, st.resolved, ValuesInOrder(st.procs, st.order), []))
  {
    var fs := map[path := FileEntry(lines, false)];
    assert [path][..0] == [] && [path][0] == path;
    assert ParseFiles(false, [], [], fs, TestDesired, filter) == Success(AllOutcome(false, [], [], []));
    assert ParseFile(false, [], path, fs, TestDesired, filter) == Success(FileOutcome(st, []));
    var vs := ValuesInOrder(st.procs, st.order);
    assert ParseFiles(false, [], [path], fs, TestDesired, filter) == Success(AllOutcome(st.verified, st.resolved, [] + vs, [] + []));
    var none: seq<string> := [];
    assert [] + vs == vs && none + none == none;
  }

  /** The two processes of the test, as `ParseFiles` returns them. */
  lemma SmokeProcesses(path: string) returns (session: ProcessValue, userInfo: ProcessValue)
    requires path != ""
    ensures var r := ParseFiles(false, [], [path], TestFiles(path), TestDesired, TestFilter());
      r.Success? && r.value.processes == [session, userInfo] && r.value.messages == []
    ensures Recorded(session, SessionRow1[2], path, [SessionRow1[0]] + [SessionRow2[0]] + [SessionRow3[0]],
                     [Cpu(SessionRow1)] + [Cpu(SessionRow2)] + [Cpu(SessionRow3)],
                     [Mem(SessionRow1)] + [Mem(SessionRow2)] + [Mem(SessionRow3)])
    ensures Recorded(userInfo, UserInfoRow[2], path, [UserInfoRow[0]], [Cpu(UserInfoRow)], [Mem(UserInfoRow)])
  {
    DataLinesParsed(path);
    TestLinesParsed(path);
    var st := ParseLines(AfterHeader, DataLines(), path, TestDesired, TestFilter()).value;
    SingleFileParsed(path, TestLines(), st, TestFilter());
    var first, second := ComposeId(SessionRow1[2], path), ComposeId(UserInfoRow[2], path);
    ValuesInOrderOfTwo(st.procs, first, second);
    session, userInfo := st.procs[first], st.procs[second];
  }

  /** A numeral in the CPU column is read as that number. */
  lemma CpuOf(row: seq<string>, n: int)
    requires |row| == 8 && row[3] == IntToString(n)
    ensures Cpu(row) == n as real
  {
    TransformOfNumeral("%ProcessorTime", 3, n);
  }

  /** A numeral in the private-bytes column is read as that many bytes, in megabytes. */
  lemma MemOf(row: seq<string>, n: int)
    requires |row| == 8 && row[6] == IntToString(n)
    ensures Mem(row) == n as real / 1000000.0
  {
    TransformOfNumeral("PrivateBytes", 6, n);
  }

  lemma SessionRow1Values()
    ensures Cpu(SessionRow1) == 23.0 && Mem(SessionRow1) == 30.208
  {
    Numeral23();
    Numeral30208000();
    CpuOf(SessionRow1, 23);
    MemOf(SessionRow1, 30208000);
  }

  lemma SessionRow2Values()
    ensures Cpu(SessionRow2) == 24.0 && Mem(SessionRow2) == 25.071616
  {
    Numeral24();
    Numeral25071616();
    CpuOf(SessionRow2, 24);
    MemOf(SessionRow2, 25071616);
  }

  lemma SessionRow3Values()
    ensures Cpu(SessionRow3) == 25.0 && Mem(SessionRow3) == 25.214976
  {
    Numeral25();
    Numeral25214976();
    CpuOf(SessionRow3, 25);
    MemOf(SessionRow3, 25214976);
  }

  lemma UserInfoRowValues()
    ensures Cpu(UserInfoRow) == 11.0 && Mem(UserInfoRow) == 13.4144
  {
    Numeral11();
    Numeral13414400();
    CpuOf(UserInfoRow, 11);
    MemOf(UserInfoRow, 13414400);
  }

  lemma SessionNameAndId()
    ensures NameOf(SessionRow1[2]) == "RBCWSSession" && IdOf(SessionRow1[2]) == 6520
  {
    assert IntToString(6520) == "6520";
    assert "RBCWSSession" + "(" + IntToString(6520) + ")" == SessionRow1[2];
    assert NoneIn("RBCWSSession", Parens);
    NameAndIdRoundTrip("RBCWSSession", 6520);
  }

  lemma UserInfoNameAndId()
    ensures NameOf(UserInfoRow[2]) == "RBCWSUserInfo" && IdOf(UserInfoRow[2]) == 10496
  {
    assert IntToString(10496) == "10496";
    assert "RBCWSUserInfo" + "(" + IntToString(10496) + ")" == UserInfoRow[2];
    assert NoneIn("RBCWSUserInfo", Parens);
    NameAndIdRoundTrip("RBCWSUserInfo", 10496);
  }

  /** What the test checks of the session process, from what its three rows recorded. */
  predicate SessionChecked(p: ProcessValue, path: string)
  {
    && p.processName == "RBCWSSession" && p.processId == 6520 && p.logFileName == path
    && p.timeSeries == [SessionRow1[0], SessionRow2[0], SessionRow3[0]]
    && Lookup(p.series, "%ProcessorTime") == [23.0, 24.0, 25.0]
    && Lookup(p.series, "PrivateBytes") == [30.208, 25.071616, 25.214976]
  }

  /** What the test checks of the user-info process, from what its one row recorded. */
  predicate UserInfoChecked(p: ProcessValue, path: string)
  {
    && p.processName == "RBCWSUserInfo" && p.processId == 10496 && p.logFileName == path
    && p.timeSeries == [UserInfoRow[0]]
    && Lookup(p.series, "%ProcessorTime") == [11.0]
    && Lookup(p.series, "PrivateBytes") == [13.4144]
  }

  lemma SessionRecorded(p: ProcessValue, path: string)
    requires Recorded(p, SessionRow1[2], path, [SessionRow1[0]] + [SessionRow2[0]] + [SessionRow3[0]],
                      [Cpu(SessionRow1)] + [Cpu(SessionRow2)] + [Cpu(SessionRow3)],
                      [Mem(SessionRow1)] + [Mem(SessionRow2)] + [Mem(SessionRow3)])
    ensures SessionChecked(p, path)
  {
    SessionNameAndId();
    SessionSeries();
  }

  /** The three rows of the session process give CPU values 23, 24 and 25 and 30.208, 25.071616 and 25.214976 megabytes. */
  lemma SessionSeries()
    ensures [Cpu(SessionRow1)] + [Cpu(SessionRow2)] + [Cpu(SessionRow3)] == [23.0, 24.0, 25.0]
    ensures [Mem(SessionRow1)] + [Mem(SessionRow2)] + [Mem(SessionRow3)] == [30.208, 25.071616, 25.214976]
    ensures [SessionRow1[0]] + [SessionRow2[0]] + [SessionRow3[0]] == [SessionRow1[0], SessionRow2[0], SessionRow3[0]]
  {
    SessionRow1Values();
    SessionRow2Values();
    SessionRow3Values();
  }

  lemma UserInfoRecorded(p: ProcessValue, path: string)
    requires Recorded(p, UserInfoRow[2], path, [UserInfoRow[0]], [Cpu(UserInfoRow)], [Mem(UserInfoRow)])
    ensures UserInfoChecked(p, path)
  {
    UserInfoNameAndId();
    UserInfoRowValues();
  }

  /**
    The smoke test of the log parser: the test file yields the session process
    with three timestamps, CPU values 23, 24 and 25 and private bytes of
    30.208, 25.071616 and 25.214976 megabytes, then the user-info process with
    one timestamp, 11 and 13.4144; nothing is logged.
  */
  lemma SmokeTest(path: string)
    requires path != ""
    ensures var r := ParseFiles(false, [], [path], TestFiles(path), TestDesired, TestFilter());
      && r.Success? && r.value.messages == [] && |r.value.processes| == 2
      && SessionChecked(r.value.processes[0], path) && UserInfoChecked(r.value.processes[1], path)
  {
    var session, userInfo := SmokeProcesses(path);
    SessionRecorded(session, path);
    UserInfoRecorded(userInfo, path);
  }

  /**
    `ParseLogs` sorts by name, log file and id: "RBCWSSession" comes before
    "RBCWSUserInfo" at their sixth character, whatever the file and ids.
  */
  lemma SessionSortsFirst(path: string)
    ensures LexLe(KeyOf("RBCWSSession", path, 6520), KeyOf("RBCWSUserInfo", path, 10496))
    ensures !LexLe(KeyOf("RBCWSUserInfo", path, 10496), KeyOf("RBCWSSession", path, 6520))
  {
    var a, b := KeyOf("RBCWSSession", path, 6520), KeyOf("RBCWSUserInfo", path, 10496);
    assert a == "RBCWS" + a[5..] && b == "RBCWS" + b[5..];
    assert a[5..][0] == 'S' && b[5..][0] == 'U';
    LexLeCommonPrefix("RBCWS", a[5..], b[5..]);
    LexLeCommonPrefix("RBCWS", b[5..], a[5..]);
  }

  /** The sort key of a process state, as `SortKey` computes it from the object. */
  function ValueKey(v: ProcessValue): string
  {
    KeyOf(v.processName, v.logFileName, v.processId)
  }

  /** A sorted arrangement of two processes whose keys are strictly ordered is that order. */
  lemma TwoInKeyOrder(vs: seq<ProcessValue>, first: ProcessValue, second: ProcessValue)
    requires multiset(vs) == multiset([first, second])
    requires |vs| == 2 ==> LexLe(ValueKey(vs[0]), ValueKey(vs[1]))
    requires !LexLe(ValueKey(second), ValueKey(first))
    ensures vs == [first, second]
  {
    assert |vs| == |multiset(vs)| == 2;
    assert vs == [vs[0], vs[1]];
    assert vs[0] in multiset(vs) && vs[1] in multiset(vs);
    assert multiset(vs) == multiset{first, vs[1]};
  }

  /** Sorting the two checked processes by key puts the session process first. */
  lemma CheckedInKeyOrder(path: string, r: seq<Process>, ps: seq<ProcessValue>)
    requires |ps| == 2 && SessionChecked(ps[0], path) && UserInfoChecked(ps[1], path)
    requires SortedUpTo(r, |r|, SortKey) && multiset(Values(r)) == multiset(ps)
    ensures |r| == 2 && SessionChecked(r[0].Value(), path) && UserInfoChecked(r[1].Value(), path)
  {
    assert ps == [ps[0], ps[1]];
    SessionSortsFirst(path);
    var vs := Values(r);
    if |vs| == 2 {
      assert SortKey(r[0]) == ValueKey(vs[0]) && SortKey(r[1]) == ValueKey(vs[1]);
    }
    TwoInKeyOrder(vs, ps[0], ps[1]);
  }

  /**
    What the test reads after `ParseLogs`: whatever order the sort leaves, the
    session process is first and the user-info process second.
  */
  lemma SmokeTestSorted(path: string, r: seq<Process>)
    requires path != ""
    requires ParseFiles(false, [], [path], TestFiles(path), TestDesired, TestFilter()).Success?
    requires SortedUpTo(r, |r|, SortKey)
    requires multiset(Values(r)) == multiset(ParseFiles(false, [], [path], TestFiles(path), TestDesired, TestFilter()).value.processes)
    ensures |r| == 2 && SessionChecked(r[0].Value(), path) && UserInfoChecked(r[1].Value(), path)
  {
    SmokeTest(path);
    CheckedInKeyOrder(path, r, ParseFiles(false, [], [path], TestFiles(path), TestDesired, TestFilter()).value.processes);
  }

  /** Cutting a list of lines around its fourth line. */
  lemma SplitAroundFourth(p: seq<string>, d: seq<string>)
    requires |p| >= 4
    ensures p + d == p[..3] + [p[3]] + (p[4..] + d)
  {
    assert p == p[..3] + [p[3]] + p[4..];
  }

  /** A line without a comma is one field, so the parser ignores it. */
  lemma CommaFreeIgnored(line: string, filter: ProcessFilter)
    requires NoneIn(line, {','})
    ensures Ignored(line, filter)
  {
    CountInNone(line, {','});
  }

  lemma ThreeIgnored(pre: seq<string>, filter: ProcessFilter)
    requires |pre| == 3 && Ignored(pre[0], filter) && Ignored(pre[1], filter) && Ignored(pre[2], filter)
    ensures forall k :: 0 <= k < |pre| ==> Ignored(pre[k], filter)
  {
  }

  lemma TakeThree(a: string, b: string, c: string, d: string, e: string, f: string)
    ensures [a, b, c, d, e, f][..3] == [a, b, c]
  {
  }

  /** The banner lines and the blank line before the header are ignored. */
  lemma PreludeOpeningIgnored()
    ensures var pre := Prelude()[..3]; forall k :: 0 <= k < |pre| ==> Ignored(pre[k], TestFilter())
  {
    TakeThree(Banner1, Banner2, "", Join(HeaderRow, ","), Join(IdleRow, ","), Join(SystemRow, ","));
    Banner1CommaFree();
    Banner2CommaFree();
    CommaFreeIgnored(Banner1, TestFilter());
    CommaFreeIgnored(Banner2, TestFilter());
    CommaFreeIgnored("", TestFilter());
    ThreeIgnored([Banner1, Banner2, ""], TestFilter());
  }

  /** The fourth line is the header. */
  lemma PreludeFourthIsHeader()
    ensures var fields := Split(Prelude()[3], {','}); |fields| >= MinFields && fields[0] == HeaderTag
  {
    assert Prelude()[3] == Join(HeaderRow, ",");
    HeaderRowSplit();
    assert HeaderRow[0] == HeaderTag;
  }

  lemma TestDesiredDistinct()
    ensures DesiredDistinct(TestDesired)
  {
    assert TestDesired[0].name[0] != TestDesired[1].name[0];
  }

  /**
    Whatever `ParseFiles` makes of the test file, every process has one
    value per timestamp in each resolved series: three ignored lines come
    before the header.
  */
  lemma TestFileExact(path: string, all: AllOutcome)
    requires ParseFiles(false, [], [path], TestFiles(path), TestDesired, TestFilter()) == Success(all)
    ensures forall k :: 0 <= k < |all.processes| ==> Exact(all.processes[k], all.resolved)
  {
    SplitAroundFourth(Prelude(), DataLines());
    PreludeOpeningIgnored();
    PreludeFourthIsHeader();
    TestDesiredDistinct();
    ParseFilesKeepsExact([path], TestFiles(path), Prelude()[..3], Prelude()[3], Prelude()[4..] + DataLines(),
                         TestDesired, TestFilter(), all);
  }

  /** The test file resolves the two registered series and no file after it can change them. */
  lemma TestFileResolved(path: string)
    requires path != ""
    ensures var r := ParseFiles(false, [], [path], TestFiles(path), TestDesired, TestFilter());
      r.Success? ==> r.value.resolved == TestSeries
  {
    TestLinesParsed(path);
    HeaderAppliedOnce(AfterHeader, DataLines(), path, TestDesired, TestFilter());
    match ParseLines(AfterHeader, DataLines(), path, TestDesired, TestFilter())
    case Failure(_) =>
    case Success(st) => SingleFileParsed(path, TestLines(), st, TestFilter());
  }

  /**
    In the smoke test, every process has exactly one "%ProcessorTime" and one
    "PrivateBytes" value per timestamp.
  */
  lemma SmokeTestExact(path: string)
    requires path != ""
    ensures var r := ParseFiles(false, [], [path], TestFiles(path), TestDesired, TestFilter());
      && r.Success? && r.value.resolved == TestSeries
      && forall k :: 0 <= k < |r.value.processes| ==> Exact(r.value.processes[k], TestSeries)
  {
    SmokeTest(path);
    TestFileResolved(path);
    TestFileExact(path, ParseFiles(false, [], [path], TestFiles(path), TestDesired, TestFilter()).value);
  }

  lemma Numeral23()
    ensures IntToString(23) == "23"
  {
  }

  lemma Numeral30208000()
    ensures IntToString(30208000) == "30208000"
  {
    NumeralSnoc(3, 0);
    NumeralSnoc(30, 2);
    NumeralSnoc(302, 0);
    NumeralSnoc(3020, 8);
    NumeralSnoc(30208, 0);
    NumeralSnoc(302080, 0);
    NumeralSnoc(3020800, 0);
  }

  lemma Numeral24()
    ensures IntToString(24) == "24"
  {
  }

  lemma Numeral25071616()
    ensures IntToString(25071616) == "25071616"
  {
    NumeralSnoc(2, 5);
    NumeralSnoc(25, 0);
    NumeralSnoc(250, 7);
    NumeralSnoc(2507, 1);
    NumeralSnoc(25071, 6);
    NumeralSnoc(250716, 1);
    NumeralSnoc(2507161, 6);
  }

  lemma Numeral25()
    ensures IntToString(25) == "25"
  {
  }

  lemma Numeral25214976()
    ensures IntToString(25214976) == "25214976"
  {
    NumeralSnoc(2, 5);
    NumeralSnoc(25, 2);
    NumeralSnoc(252, 1);
    NumeralSnoc(2521, 4);
    NumeralSnoc(25214, 9);
    NumeralSnoc(252149, 7);
    NumeralSnoc(2521497, 6);
  }

  lemma Numeral11()
    ensures IntToString(11) == "11"
  {
  }

  lemma Numeral13414400()
    ensures IntToString(13414400) == "13414400"
  {
    NumeralSnoc(1, 3);
    NumeralSnoc(13, 4);
    NumeralSnoc(134, 1);
    NumeralSnoc(1341, 4);
    NumeralSnoc(13414, 4);
    NumeralSnoc(134144, 0);
    NumeralSnoc(1341440, 0);
  }

  /** One more digit on the right of a positive number is one more character on the right of its numeral. */
  lemma NumeralSnoc(n: nat, d: nat)
    requires n >= 1 && d < 10
    ensures NatToString(10 * n + d) == NatToString(n) + [DigitChar(d)]
  {
    assert (10 * n + d) / 10 == n && (10 * n + d) % 10 == d;
  }
}
