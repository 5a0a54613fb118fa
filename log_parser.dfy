/**
  The log parser: reads comma-separated performance-counter logs line by line
  and collects, per file, one `Process` per `Name(Id)` field that passes the
  process filter, with a timestamp and one value per resolved series for
  every data line. The pure functions below say what one line, one file and a
  list of files do; the class `LogParser` does it in place and is proved to
  agree with them.
*/
module LogParsers {
  import opened Wrappers
  import opened Strings
  import opened Numbers
  import opened SeriesTypes
  import opened SeriesFilters
  import opened ProcessFilters
  import opened Processes

  /** The exceptions that leave `ParseLogs`; an `IOException` is caught and is not one of them. */
  datatype ParseError =
    | SeriesNotFound        // the first header resolves no series
    | FieldIndexOutOfRange  // a data line shorter than a resolved column
    | InvalidPath           // `Path.GetFullPath` refuses the empty path

  /**
    A readable file: its lines, and whether reading fails with an
    `IOException` once they have been read.
  */
  datatype FileEntry = FileEntry(lines: seq<string>, failsAfterLines: bool)

  /** The files by path; a path that is not a key cannot be opened. */
  type FileSystem = map<string, FileEntry>

  /** A line with fewer fields than this is skipped. */
  const MinFields: nat := 4

  /** The first field of a header line. */
  const HeaderTag: string := "Time"

  /** What the logger receives when a file cannot be read. */
  function NotFoundMessage(path: string): string
  {
    "Log file " + path + " is not found!"
  }

  /**
    What reading one file has built so far: the parser's header flag, the
    series the filter has resolved, and the file's processes by key with the
    keys in the order they were first met.
  */
  datatype FileState = FileState(
    verified: bool,
    resolved: seq<Series>,
    procs: map<string, ProcessValue>,
    order: seq<string>)

  /** Every resolved column exists in the line. */
  predicate InRange(resolved: seq<Series>, fields: seq<string>)
  {
    forall k :: 0 <= k < |resolved| ==> resolved[k].position < |fields|
  }

  /** `Set(s.Name, s.Transform(field[s.Position]))` for each resolved series `s`, in order. */
  function AppendValues(series: map<string, seq<real>>, resolved: seq<Series>, fields: seq<string>): map<string, seq<real>>
    requires InRange(resolved, fields)
    decreases |resolved|
  {
    if resolved == [] then series
    else
      var s := resolved[|resolved| - 1];
      SetValue(AppendValues(series, resolved[..|resolved| - 1], fields), s.name, s.Transform(Some(fields[s.position])))
  }

  /** A header line: it resolves the series only while the flag is down. */
  function HeaderLine(st: FileState, fields: seq<string>, desired: seq<DesiredSeries>): Result<FileState, ParseError>
  {
    if st.verified then Success(st)
    else
      var resolved := st.resolved + Resolve(desired, fields);
      if resolved == [] then Failure(SeriesNotFound)
      else Success(st.(verified := true, resolved := resolved))
  }

  /**
    A data line whose `Name(Id)` passed the filter: the process keyed by
    `ComposeId(Name(Id), path)` is created if absent, and a non-empty timestamp
    appends the timestamp and one value per resolved series.
  */
  function DataLine(st: FileState, fields: seq<string>, path: string): Result<FileState, ParseError>
    requires |fields| >= MinFields
  {
    var nameAndId := fields[2];
    var id := ComposeId(nameAndId, path);
    var p := if id in st.procs then st.procs[id] else NewProcessValue(nameAndId, path);
    var order := if id in st.procs then st.order else st.order + [id];
    var time := fields[0];
    if |time| == 0 then Success(st.(procs := st.procs[id := p], order := order))
    else if !InRange(st.resolved, fields) then Failure(FieldIndexOutOfRange)
    else
      var q := p.(timeSeries := p.timeSeries + [time], series := AppendValues(p.series, st.resolved, fields));
      Success(st.(procs := st.procs[id := q], order := order))
  }

  /** One line of a log file: too short, a header, or data. */
  function ParseLine(st: FileState, line: string, path: string, desired: seq<DesiredSeries>, filter: ProcessFilter): Result<FileState, ParseError>
  {
    var fields := Split(line, {','});
    if |fields| < MinFields then Success(st)
    else if fields[0] == HeaderTag then HeaderLine(st, fields, desired)
    else if !Contains(filter, fields[2]) then Success(st)
    else DataLine(st, fields, path)
  }

  /** The lines of a file, first to last; the first exception ends the file. */
  function ParseLines(st: FileState, lines: seq<string>, path: string, desired: seq<DesiredSeries>, filter: ProcessFilter): Result<FileState, ParseError>
    decreases |lines|
  {
    if lines == [] then Success(st)
    else
      match ParseLines(st, lines[..|lines| - 1], path, desired, filter)
      case Failure(e) => Failure(e)
      case Success(s) => ParseLine(s, lines[|lines| - 1], path, desired, filter)
  }

  /** The outcome of one file: the state reached and the messages logged. */
  datatype FileOutcome = FileOutcome(state: FileState, messages: seq<string>)

  /** `ParseLog(path)`, starting from the parser's flag and the filter's series. */
  function ParseFile(verified: bool, resolved: seq<Series>, path: string, fs: FileSystem,
                     desired: seq<DesiredSeries>, filter: ProcessFilter): Result<FileOutcome, ParseError>
  {
    var start := FileState(verified, resolved, map[], []);
    if path == "" then Failure(InvalidPath)
    else if path !in fs then Success(FileOutcome(start, [NotFoundMessage(path)]))
    else
      match ParseLines(start, fs[path].lines, path, desired, filter)
      case Failure(e) => Failure(e)
      case Success(st) => Success(FileOutcome(st, if fs[path].failsAfterLines then [NotFoundMessage(path)] else []))
  }

  /** The processes of a map, in the order of `order`. */
  function ValuesInOrder(procs: map<string, ProcessValue>, order: seq<string>): seq<ProcessValue>
    decreases |order|
  {
    if order == [] then []
    else ValuesInOrder(procs, order[..|order| - 1]) + (if order[|order| - 1] in procs then [procs[order[|order| - 1]]] else [])
  }

  /** The outcome of all files: flag, series, the concatenated processes before sorting, messages. */
  datatype AllOutcome = AllOutcome(verified: bool, resolved: seq<Series>, processes: seq<ProcessValue>, messages: seq<string>)

  /** The files of `ParseLogs`, in the order given; the first exception ends the call. */
  function ParseFiles(verified: bool, resolved: seq<Series>, paths: seq<string>, fs: FileSystem,
                      desired: seq<DesiredSeries>, filter: ProcessFilter): Result<AllOutcome, ParseError>
    decreases |paths|
  {
    if paths == [] then Success(AllOutcome(verified, resolved, [], []))
    else
      match ParseFiles(verified, resolved, paths[..|paths| - 1], fs, desired, filter)
      case Failure(e) => Failure(e)
      case Success(all) =>
        match ParseFile(all.verified, all.resolved, paths[|paths| - 1], fs, desired, filter)
        case Failure(e) => Failure(e)
        case Success(out) =>
          Success(AllOutcome(out.state.verified, out.state.resolved,
                             all.processes + ValuesInOrder(out.state.procs, out.state.order),
                             all.messages + out.messages))
  }

  /** The sort key of a process: name, log file and id, separated by spaces. */
  function KeyOf(name: string, logFileName: string, pid: int): string
  {
    name + " " + logFileName + " " + IntToString(pid)
  }

  function SortKey(p: Process): string
  {
    KeyOf(p.processName, p.logFileName, p.processId)
  }

  /** No object appears twice. */
  predicate Distinct(s: seq<Process>)
  {
    forall i, j :: 0 <= i < j < |s| ==> s[i] != s[j]
  }

  /** The states of the objects of `s`. */
  ghost function Values(s: seq<Process>): (r: seq<ProcessValue>)
    reads s
    ensures |r| == |s|
    ensures forall i :: 0 <= i < |s| ==> r[i] == s[i].Value()
  {
    seq(|s|, i reads s requires 0 <= i < |s| => s[i].Value())
  }

  /** The first `n` elements are ordered by `key`. */
  predicate SortedUpTo(s: seq<Process>, n: nat, key: Process -> string)
    requires n <= |s|
  {
    forall x, y :: 0 <= x < y < n ==> LexLe(key(s[x]), key(s[y]))
  }

  /**
    The state of `InsertDown` with the moving element at `j`: the others up to
    `i` are in order, and it is at most every element after it.
  */
  ghost predicate Sinking(s: seq<Process>, i: nat, j: nat, key: Process -> string)
    requires j <= i < |s|
  {
    && (forall m, n :: 0 <= m < n <= i && m != j && n != j ==> LexLe(key(s[m]), key(s[n])))
    && (forall n :: j < n <= i ==> LexLe(key(s[j]), key(s[n])))
  }

  /** Swapping the moving element with a larger one before it keeps `Sinking`, one place down. */
  lemma SinkStep(s: seq<Process>, i: nat, j: nat, key: Process -> string)
    requires 0 < j <= i < |s| && Sinking(s, i, j, key)
    requires !LexLe(key(s[j - 1]), key(s[j]))
    ensures Sinking(s[j - 1 := s[j]][j := s[j - 1]], i, j - 1, key)
    ensures multiset(s[j - 1 := s[j]][j := s[j - 1]]) == multiset(s)
  {
    LexLeTotal(key(s[j - 1]), key(s[j]));
    var t := s[j - 1 := s[j]][j := s[j - 1]];
    forall n | j - 1 < n <= i
      ensures LexLe(key(t[j - 1]), key(t[n]))
    {
      if n > j {
        LexLeTransitive(key(s[j]), key(s[j - 1]), key(s[n]));
      }
    }
  }

  /** Where the moving element stops, everything up to `i` is in order. */
  lemma SinkDone(s: seq<Process>, i: nat, j: nat, key: Process -> string)
    requires j <= i < |s| && Sinking(s, i, j, key)
    requires j == 0 || LexLe(key(s[j - 1]), key(s[j]))
    ensures SortedUpTo(s, i + 1, key)
  {
    forall m | 0 <= m < j - 1
      ensures LexLe(key(s[m]), key(s[j]))
    {
      LexLeTransitive(key(s[m]), key(s[j - 1]), key(s[j]));
    }
  }

  /** Moves `a[i]` down past the larger keys before it, so that one more element is in order. */
  method InsertDown(a: array<Process>, i: nat, key: Process -> string)
    requires i < a.Length && SortedUpTo(a[..], i, key)
    modifies a
    ensures SortedUpTo(a[..], i + 1, key)
    ensures multiset(a[..]) == multiset(old(a[..]))
  {
    var j := i;
    while j > 0 && !LexLe(key(a[j - 1]), key(a[j]))
      invariant 0 <= j <= i
      invariant Sinking(a[..], i, j, key)
      invariant multiset(a[..]) == multiset(old(a[..]))
    {
      SinkStep(a[..], i, j, key);
      a[j - 1], a[j] := a[j], a[j - 1];
      j := j - 1;
    }
    SinkDone(a[..], i, j, key);
  }

  /**
    `List.Sort(comparison)` where the comparison orders by `key`, done as an
    insertion sort. `List.Sort` is not stable, so the order of equal keys is
    left open.
  */
  method SortBy(a: array<Process>, key: Process -> string)
    modifies a
    ensures SortedUpTo(a[..], a.Length, key)
    ensures multiset(a[..]) == multiset(old(a[..]))
  {
    var i := 0;
    while i < a.Length
      invariant 0 <= i <= a.Length
      invariant SortedUpTo(a[..], i, key)
      invariant multiset(a[..]) == multiset(old(a[..]))
    {
      InsertDown(a, i, key);
      i := i + 1;
    }
  }

  /** The `result.Sort(...)` of `ParseLogs`: a reordering of `s` by `SortKey`. */
  method SortProcesses(s: seq<Process>) returns (t: seq<Process>)
    ensures SortedUpTo(t, |t|, SortKey)
    ensures multiset(t) == multiset(s)
  {
    var a := new Process[|s|](k requires 0 <= k < |s| => s[k]);
    assert a[..] == s;
    SortBy(a, SortKey);
    t := a[..];
  }

  /** Once a prefix of the lines has thrown, the whole file throws the same. */
  lemma {:induction false} ParseLinesFailurePersists(st: FileState, lines: seq<string>, i: nat, path: string,
                                                     desired: seq<DesiredSeries>, filter: ProcessFilter)
    requires i <= |lines| && ParseLines(st, lines[..i], path, desired, filter).Failure?
    ensures ParseLines(st, lines, path, desired, filter) == ParseLines(st, lines[..i], path, desired, filter)
    decreases |lines|
  {
    if i < |lines| {
      assert lines[..|lines| - 1][..i] == lines[..i];
      ParseLinesFailurePersists(st, lines[..|lines| - 1], i, path, desired, filter);
    } else {
      assert lines[..i] == lines;
    }
  }

  /** Once a prefix of the paths has thrown, the whole call throws the same. */
  lemma {:induction false} ParseFilesFailurePersists(verified: bool, resolved: seq<Series>, paths: seq<string>, i: nat,
                                                     fs: FileSystem, desired: seq<DesiredSeries>, filter: ProcessFilter)
    requires i <= |paths| && ParseFiles(verified, resolved, paths[..i], fs, desired, filter).Failure?
    ensures ParseFiles(verified, resolved, paths, fs, desired, filter) == ParseFiles(verified, resolved, paths[..i], fs, desired, filter)
    decreases |paths|
  {
    if i < |paths| {
      assert paths[..|paths| - 1][..i] == paths[..i];
      ParseFilesFailurePersists(verified, resolved, paths[..|paths| - 1], i, fs, desired, filter);
    } else {
      assert paths[..i] == paths;
    }
  }

  /** When every key of `order` is in the map, `ValuesInOrder` holds one process per key. */
  lemma {:induction false} ValuesInOrderIndex(procs: map<string, ProcessValue>, order: seq<string>)
    requires forall k :: 0 <= k < |order| ==> order[k] in procs
    ensures |ValuesInOrder(procs, order)| == |order|
    ensures forall k :: 0 <= k < |order| ==> ValuesInOrder(procs, order)[k] == procs[order[k]]
    decreases |order|
  {
    if order != [] {
      ValuesInOrderIndex(procs, order[..|order| - 1]);
    }
  }

  lemma ValuesAppend(s: seq<Process>, t: seq<Process>)
    ensures Values(s + t) == Values(s) + Values(t)
  {
  }

  /** A file that parses continues the outcome of the files before it. */
  lemma ParseFilesSnoc(verified: bool, resolved: seq<Series>, paths: seq<string>, i: nat,
                       fs: FileSystem, desired: seq<DesiredSeries>, filter: ProcessFilter,
                       all: AllOutcome, out: FileOutcome)
    requires i < |paths|
    requires ParseFiles(verified, resolved, paths[..i], fs, desired, filter) == Success(all)
    requires ParseFile(all.verified, all.resolved, paths[i], fs, desired, filter) == Success(out)
    ensures ParseFiles(verified, resolved, paths[..i + 1], fs, desired, filter) ==
      Success(AllOutcome(out.state.verified, out.state.resolved,
                         all.processes + ValuesInOrder(out.state.procs, out.state.order),
                         all.messages + out.messages))
  {
    assert paths[..i + 1][..i] == paths[..i];
  }

  /** A file that throws ends all files with its exception. */
  lemma ParseFilesFails(verified: bool, resolved: seq<Series>, paths: seq<string>, i: nat,
                        fs: FileSystem, desired: seq<DesiredSeries>, filter: ProcessFilter,
                        all: AllOutcome, e: ParseError)
    requires i < |paths|
    requires ParseFiles(verified, resolved, paths[..i], fs, desired, filter) == Success(all)
    requires ParseFile(all.verified, all.resolved, paths[i], fs, desired, filter) == Failure(e)
    ensures ParseFiles(verified, resolved, paths, fs, desired, filter) == Failure(e)
  {
    assert paths[..i + 1][..i] == paths[..i];
    ParseFilesFailurePersists(verified, resolved, paths, i + 1, fs, desired, filter);
  }

  /** Taking out the element at `i` takes one copy of it out of the multiset. */
  lemma RemoveAt(t: seq<Process>, i: nat)
    requires i < |t|
    ensures multiset(t[..i] + t[i + 1..]) == multiset(t) - multiset{t[i]}
  {
    assert t == t[..i] + [t[i]] + t[i + 1..];
  }

  /** ... and one copy of its state out of the multiset of states. */
  lemma ValuesRemoveAt(t: seq<Process>, i: nat)
    requires i < |t|
    ensures multiset(Values(t)) == multiset(Values(t[..i] + t[i + 1..])) + multiset{t[i].Value()}
  {
    var v, w := Values(t), Values(t[..i] + t[i + 1..]);
    assert w == v[..i] + v[i + 1..];
    assert v == v[..i] + [v[i]] + v[i + 1..];
  }

  /** The position in `t` of the first object of `s`, a reordering of `t`. */
  lemma PickFirst(s: seq<Process>, t: seq<Process>) returns (i: nat)
    requires s != [] && multiset(s) == multiset(t)
    ensures i < |t| && t[i] == s[0]
    ensures multiset(s[1..]) == multiset(t[..i] + t[i + 1..])
  {
    assert s[0] in multiset(t);
    i :| 0 <= i < |t| && t[i] == s[0];
    RemoveAt(t, i);
    assert multiset(s[1..]) == multiset(s) - multiset{s[0]} by {
      assert s == [s[0]] + s[1..];
    }
  }

  /** Putting the same state back on both sides keeps two multisets of states equal. */
  lemma ValuesPutBack(s: seq<Process>, t: seq<Process>, i: nat)
    requires s != [] && i < |t| && t[i] == s[0]
    requires multiset(Values(s[1..])) == multiset(Values(t[..i] + t[i + 1..]))
    ensures multiset(Values(s)) == multiset(Values(t))
  {
    ValuesRemoveAt(t, i);
    ValuesRemoveAt(s, 0);
    assert s[..0] + s[1..] == s[1..];
  }

  /** Reordering the objects reorders their states the same way. */
  lemma {:induction false} ValuesPermutation(s: seq<Process>, t: seq<Process>)
    requires multiset(s) == multiset(t)
    ensures multiset(Values(s)) == multiset(Values(t))
    decreases |s|
  {
    if s == [] {
      assert |t| == |multiset(t)|;
    } else {
      var i := PickFirst(s, t);
      ValuesPermutation(s[1..], t[..i] + t[i + 1..]);
      ValuesPutBack(s, t, i);
    }
  }

  /** In a sequence of distinct objects each occurs at most once. */
  lemma {:induction false} DistinctOnce(s: seq<Process>, x: Process)
    requires Distinct(s)
    ensures multiset(s)[x] <= 1
    decreases |s|
  {
    if s != [] {
      assert s == [s[0]] + s[1..];
      DistinctOnce(s[1..], x);
      if x == s[0] {
        assert x !in s[1..];
      }
    }
  }

  /** An object at two positions occurs twice. */
  lemma TwiceCounted(t: seq<Process>, i: nat, j: nat)
    requires i < j < |t|
    ensures t[i] == t[j] ==> multiset(t)[t[i]] >= 2
  {
    assert t == t[..i] + [t[i]] + t[i + 1..j] + [t[j]] + t[j + 1..];
  }

  /** A reordering of distinct objects is distinct. */
  lemma DistinctPermutation(s: seq<Process>, t: seq<Process>)
    requires Distinct(s) && multiset(s) == multiset(t)
    ensures Distinct(t)
  {
    forall i, j | 0 <= i < j < |t|
      ensures t[i] != t[j]
    {
      DistinctOnce(s, t[i]);
      TwiceCounted(t, i, j);
    }
  }

  /** Two sequences of distinct objects with no object in common concatenate to one. */
  lemma DistinctAppend(s: seq<Process>, t: seq<Process>)
    requires Distinct(s) && Distinct(t)
    requires forall i, j :: 0 <= i < |s| && 0 <= j < |t| ==> s[i] != t[j]
    ensures Distinct(s + t)
  {
  }

  class LogParser {
    const processFilter: ProcessFilter
    const seriesFilter: SeriesFilter
    var areHeadersVerified: bool
    /** The messages given to the logger, oldest first. */
    ghost var log: seq<string>

    constructor (processFilter: ProcessFilter, seriesFilter: SeriesFilter)
      ensures this.processFilter == processFilter && this.seriesFilter == seriesFilter
      ensures !areHeadersVerified && log == []
    {
      this.processFilter := processFilter;
      this.seriesFilter := seriesFilter;
      areHeadersVerified := false;
      log := [];
    }

    /** The objects of `result` are in the states of `procs`, key by key. */
    ghost predicate Represents(result: map<string, Process>, procs: map<string, ProcessValue>)
      reads result.Values
    {
      && result.Keys == procs.Keys
      && forall id :: id in result ==> result[id].Value() == procs[id]
    }

    /**
      The `foreach` over the resolved series of a data line: one `Set` per
      series; `ok` is false where `field[series.Position]` throws.
    */
    method SetSeriesValues(p: Process, fields: seq<string>) returns (ok: bool)
      modifies p`series
      ensures ok <==> InRange(seriesFilter.series, fields)
      ensures ok ==> p.series == AppendValues(old(p.series), seriesFilter.series, fields)
    {
      var resolved := seriesFilter.series;
      var k := 0;
      while k < |resolved|
        invariant 0 <= k <= |resolved|
        invariant InRange(resolved[..k], fields)
        invariant p.series == AppendValues(old(p.series), resolved[..k], fields)
      {
        var s := resolved[k];
        if s.position >= |fields| {
          return false;
        }
        var prefix := resolved[..k + 1];
        assert prefix[..k] == resolved[..k] && prefix[k] == s;
        assert InRange(prefix, fields);
        var v := s.Transform(Some(fields[s.position]));
        p.Set(s.name, v);
        k := k + 1;
      }
      assert resolved[..k] == resolved;
      ok := true;
    }

    /** The keys of `order` are distinct and all filed in `result`, under distinct objects. */
    ghost predicate Indexed(result: map<string, Process>, order: seq<string>)
    {
      && (forall a, b :: a in result && b in result && a != b ==> result[a] != result[b])
      && (forall k :: 0 <= k < |order| ==> order[k] in result)
      && (forall k, m :: 0 <= k < m < |order| ==> order[k] != order[m])
    }

    /**
      The lookup-or-create step of a data line: the process filed under
      `ComposeId(nameAndId, path)`, a new one when the key is absent.
    */
    method FindOrCreate(nameAndId: string, path: string, result: map<string, Process>, order: seq<string>, ghost st: FileState)
      returns (result': map<string, Process>, order': seq<string>, p: Process)
      requires Represents(result, st.procs) && Indexed(result, order) && st.order == order
      ensures var id := ComposeId(nameAndId, path);
        && result' == result[id := p]
        && (id in result ==> p == result[id] && order' == order)
        && (id !in result ==> fresh(p) && order' == order + [id])
        && p.Value() == (if id in st.procs then st.procs[id] else NewProcessValue(nameAndId, path))
        && Represents(result', st.procs[id := p.Value()])
        && Indexed(result', order')
    {
      var id := ComposeId(nameAndId, path);
      if id in result {
        p := result[id];
        result', order' := result, order;
        assert result' == result[id := p];
      } else {
        p := new Process(nameAndId, path);
        result' := result[id := p];
        order' := order + [id];
      }
    }

    /**
      The non-empty-timestamp step of a data line: the timestamp, then one
      value per resolved series; `ok` is false where a column is missing.
    */
    method AppendData(p: Process, time: string, fields: seq<string>) returns (ok: bool)
      modifies p`timeSeries, p`series
      ensures ok <==> InRange(seriesFilter.series, fields)
      ensures ok ==> p.timeSeries == old(p.timeSeries) + [time]
      ensures ok ==> p.series == AppendValues(old(p.series), seriesFilter.series, fields)
    {
      p.AddTime(time);
      ok := SetSeriesValues(p, fields);
    }

    /**
      The timed step of a data line on the process filed under `id`: the
      timestamp, then one value per resolved series; the other processes of
      `result` keep their states.
    */
    method AppendTimed(p: Process, id: string, time: string, fields: seq<string>,
                       result: map<string, Process>, ghost procs: map<string, ProcessValue>, ghost pv: ProcessValue)
      returns (ok: bool)
      requires id in result && result[id] == p && p.Value() == pv && Represents(result, procs[id := pv])
      requires forall a, b :: a in result && b in result && a != b ==> result[a] != result[b]
      modifies p`timeSeries, p`series
      ensures ok <==> InRange(seriesFilter.series, fields)
      ensures ok ==> Represents(result, procs[id := pv.(timeSeries := pv.timeSeries + [time],
                                                        series := AppendValues(pv.series, seriesFilter.series, fields))])
    {
      ok := AppendData(p, time, fields);
      if ok {
        forall other | other in result && other != id
          ensures result[other].Value() == old(result[other].Value())
        {
          assert result[other] != p;
        }
      }
    }

    /** The data-line branch of `ParseLog`; `ok` is false where it throws. */
    method ReadDataLine(fields: seq<string>, path: string, result: map<string, Process>, order: seq<string>, ghost st: FileState)
      returns (result': map<string, Process>, order': seq<string>, ok: bool)
      requires |fields| >= MinFields
      requires Represents(result, st.procs) && Indexed(result, order)
      requires st.resolved == seriesFilter.series && st.order == order
      modifies result.Values
      ensures match DataLine(st, fields, path)
        case Failure(e) => !ok
        case Success(next) =>
          && ok && next.verified == st.verified && next.resolved == st.resolved
          && Represents(result', next.procs) && Indexed(result', order') && next.order == order'
      ensures var id := ComposeId(fields[2], path);
        && id in result' && result' == result[id := result'[id]]
        && (id in result ==> result'[id] == result[id])
        && (id !in result ==> fresh(result'[id]))
    {
      ok := true;
      var nameAndId := fields[2];
      var id := ComposeId(nameAndId, path);
      var p;
      result', order', p := FindOrCreate(nameAndId, path, result, order, st);
      ghost var pv := if id in st.procs then st.procs[id] else NewProcessValue(nameAndId, path);
      var time := fields[0];
      if |time| == 0 {
        assert DataLine(st, fields, path) == Success(st.(procs := st.procs[id := pv], order := order'));
      } else {
        ok := AppendTimed(p, id, time, fields, result', st.procs, pv);
        if ok {
          ghost var q := pv.(timeSeries := pv.timeSeries + [time], series := AppendValues(pv.series, st.resolved, fields));
          assert DataLine(st, fields, path) == Success(st.(procs := st.procs[id := q], order := order'));
        }
      }
    }

    /** The header branch of `ParseLog`: the series are resolved by the first header only. */
    method ReadHeader(line: string, ghost st: FileState, ghost desired: seq<DesiredSeries>) returns (ok: bool)
      requires st.verified == areHeadersVerified && st.resolved == seriesFilter.series
      requires desired == seriesFilter.desiredSeries
      modifies this`areHeadersVerified, seriesFilter`series
      ensures match HeaderLine(st, Split(line, {','}), desired)
        case Failure(_) => !ok
        case Success(next) => ok && next.verified == areHeadersVerified && next.resolved == seriesFilter.series
    {
      ok := true;
      if !areHeadersVerified {
        ok := seriesFilter.InitializeWithHeader(line);
        if !ok {
          return;
        }
        areHeadersVerified := true;
      }
    }

    /**
      One line of the `while` loop of `ParseLog`: skipped when too short, the
      header branch, or the data branch when `Name(Id)` passes the filter;
      `err` carries the exception the line throws.
    */
    method ReadLine(line: string, path: string, result: map<string, Process>, order: seq<string>,
                    ghost st: FileState, ghost desired: seq<DesiredSeries>)
      returns (result': map<string, Process>, order': seq<string>, err: Option<ParseError>, ghost next: FileState)
      requires Represents(result, st.procs) && Indexed(result, order)
      requires st.verified == areHeadersVerified && st.resolved == seriesFilter.series && st.order == order
      requires desired == seriesFilter.desiredSeries
      modifies this`areHeadersVerified, seriesFilter`series, result.Values
      ensures err.Some? ==> ParseLine(st, line, path, desired, processFilter) == Failure(err.value)
      ensures err.None? ==> ParseLine(st, line, path, desired, processFilter) == Success(next)
      ensures err.None? ==>
          && next.verified == areHeadersVerified && next.resolved == seriesFilter.series && next.order == order'
          && Represents(result', next.procs) && Indexed(result', order')
      ensures forall id :: id in result' ==> (id in result && result'[id] == result[id]) || fresh(result'[id])
    {
      result', order', err, next := result, order, None, st;
      var fields := Split(line, {','});
      if |fields| < MinFields {
        assert ParseLine(st, line, path, desired, processFilter) == Success(st);
      } else if fields[0] == HeaderTag {
        ghost var outcome := HeaderLine(st, fields, desired);
        assert ParseLine(st, line, path, desired, processFilter) == outcome;
        var ok := ReadHeader(line, st, desired);
        if !ok {
          err := Some(SeriesNotFound);
          return;
        }
        next := outcome.value;
      } else if Contains(processFilter, fields[2]) {
        ghost var outcome := DataLine(st, fields, path);
        assert ParseLine(st, line, path, desired, processFilter) == outcome;
        var ok;
        result', order', ok := ReadDataLine(fields, path, result, order, st);
        if !ok {
          err := Some(FieldIndexOutOfRange);
          return;
        }
        next := outcome.value;
        ghost var id := ComposeId(fields[2], path);
        forall other | other in result'
          ensures (other in result && result'[other] == result[other]) || fresh(result'[other])
        {
          if other != id {
            assert result'[other] == result[other];
          }
        }
      } else {
        assert ParseLine(st, line, path, desired, processFilter) == Success(st);
      }
    }

    /** The objects of `result` in the order of `order`. */
    function InOrder(result: map<string, Process>, order: seq<string>): (s: seq<Process>)
      requires forall k :: 0 <= k < |order| ==> order[k] in result
      ensures |s| == |order|
      ensures forall k :: 0 <= k < |order| ==> s[k] == result[order[k]]
    {
      seq(|order|, k requires 0 <= k < |order| => result[order[k]])
    }

    /** Listing the objects in key order lists their states in the same order, each object once. */
    lemma InOrderValues(result: map<string, Process>, order: seq<string>, procs: map<string, ProcessValue>)
      requires Represents(result, procs) && Indexed(result, order)
      ensures Values(InOrder(result, order)) == ValuesInOrder(procs, order)
      ensures Distinct(InOrder(result, order))
    {
      ValuesInOrderIndex(procs, order);
    }

    /**
      The `while` loop of `ParseLog` over the lines of one file, from an empty
      set of processes; `err` carries the exception that ends it early.
    */
    method ReadLines(lines: seq<string>, path: string, ghost desired: seq<DesiredSeries>)
      returns (result: map<string, Process>, order: seq<string>, err: Option<ParseError>, ghost st: FileState)
      requires desired == seriesFilter.desiredSeries
      modifies this`areHeadersVerified, seriesFilter`series
      ensures var start := FileState(old(areHeadersVerified), old(seriesFilter.series), map[], []);
        && (err.Some? ==> ParseLines(start, lines, path, desired, processFilter) == Failure(err.value))
        && (err.None? ==> ParseLines(start, lines, path, desired, processFilter) == Success(st))
      ensures err.None? ==>
        && st.verified == areHeadersVerified && st.resolved == seriesFilter.series && st.order == order
        && Represents(result, st.procs) && Indexed(result, order)
        && (forall id :: id in result ==> fresh(result[id]))
    {
      result, order, err := map[], [], None;
      ghost var start := FileState(areHeadersVerified, seriesFilter.series, map[], []);
      st := start;
      var i := 0;
      while i < |lines|
        invariant 0 <= i <= |lines|
        invariant ParseLines(start, lines[..i], path, desired, processFilter) == Success(st)
        invariant st.verified == areHeadersVerified && st.resolved == seriesFilter.series && st.order == order
        invariant Represents(result, st.procs)
        invariant forall id :: id in result ==> fresh(result[id])
        invariant Indexed(result, order)
        invariant err == None
      {
        assert lines[..i + 1][..i] == lines[..i];
        ghost var next;
        result, order, err, next := ReadLine(lines[i], path, result, order, st, desired);
        if err.Some? {
          assert ParseLines(start, lines[..i + 1], path, desired, processFilter) == Failure(err.value);
          ParseLinesFailurePersists(start, lines, i + 1, path, desired, processFilter);
          return;
        }
        st := next;
        i := i + 1;
      }
      assert lines[..i] == lines;
    }

    /**
      `ParseLog(path)`: the processes of one file, in the order their keys were
      first met. An unreadable file logs one message; the other exceptions
      leave as `Failure`, after which nothing is promised about the state.
    */
    method ParseLog(path: string, fs: FileSystem, ghost desired: seq<DesiredSeries>)
      returns (r: Result<seq<Process>, ParseError>, ghost out: FileOutcome)
      requires desired == seriesFilter.desiredSeries
      modifies this`areHeadersVerified, this`log, seriesFilter`series
      ensures r.Failure? ==> ParseFile(old(areHeadersVerified), old(seriesFilter.series), path, fs, desired, processFilter) == Failure(r.error)
      ensures r.Success? ==>
        && ParseFile(old(areHeadersVerified), old(seriesFilter.series), path, fs, desired, processFilter) == Success(out)
        && (forall k :: 0 <= k < |r.value| ==> fresh(r.value[k]))
        && Distinct(r.value)
        && Values(r.value) == ValuesInOrder(out.state.procs, out.state.order)
        && areHeadersVerified == out.state.verified
        && seriesFilter.series == out.state.resolved
        && log == old(log) + out.messages
    {
      out := FileOutcome(FileState(areHeadersVerified, seriesFilter.series, map[], []), []);
      if path == "" {
        return Failure(InvalidPath), out;
      }
      if path !in fs {
        log := log + [NotFoundMessage(path)];
        out := out.(messages := [NotFoundMessage(path)]);
        return Success([]), out;
      }
      var result, order, err, st := ReadLines(fs[path].lines, path, desired);
      if err.Some? {
        return Failure(err.value), out;
      }
      out := FileOutcome(st, []);
      if fs[path].failsAfterLines {
        log := log + [NotFoundMessage(path)];
        out := out.(messages := [NotFoundMessage(path)]);
      }
      InOrderValues(result, order, st.procs);
      r := Success(InOrder(result, order));
    }

    /**
      One turn of the `foreach` of `ParseLogs`: `ParseLog(parts[i])` and the
      `AddRange` of its processes to the list so far.
    */
    method ParseNext(parts: seq<string>, i: nat, fs: FileSystem, ghost desired: seq<DesiredSeries>,
                     ghost verified0: bool, ghost resolved0: seq<Series>, ghost log0: seq<string>,
                     ghost all: AllOutcome)
      returns (added: seq<Process>, err: Option<ParseError>, ghost all': AllOutcome)
      requires i < |parts| && desired == seriesFilter.desiredSeries
      requires ParseFiles(verified0, resolved0, parts[..i], fs, desired, processFilter) == Success(all)
      requires all.verified == areHeadersVerified && all.resolved == seriesFilter.series
      requires log == log0 + all.messages
      modifies this`areHeadersVerified, this`log, seriesFilter`series
      ensures err.Some? ==> ParseFiles(verified0, resolved0, parts, fs, desired, processFilter) == Failure(err.value)
      ensures err.None? ==>
        && ParseFiles(verified0, resolved0, parts[..i + 1], fs, desired, processFilter) == Success(all')
        && (forall k :: 0 <= k < |added| ==> fresh(added[k]))
        && Distinct(added)
        && all'.processes == all.processes + Values(added)
        && areHeadersVerified == all'.verified
        && seriesFilter.series == all'.resolved
        && log == log0 + all'.messages
    {
      var partial, out := ParseLog(parts[i], fs, desired);
      if partial.Failure? {
        ParseFilesFails(verified0, resolved0, parts, i, fs, desired, processFilter, all, partial.error);
        return [], Some(partial.error), all;
      }
      ParseFilesSnoc(verified0, resolved0, parts, i, fs, desired, processFilter, all, out);
      added, err := partial.value, None;
      all' := AllOutcome(out.state.verified, out.state.resolved,
                         all.processes + ValuesInOrder(out.state.procs, out.state.order),
                         all.messages + out.messages);
    }

    /**
      The `foreach` of `ParseLogs`: `ParseLog` for each path in turn, the
      partial lists appended in order; `err` carries the exception that ends it.
    */
    method ParseEach(parts: seq<string>, fs: FileSystem, ghost desired: seq<DesiredSeries>)
      returns (result: seq<Process>, err: Option<ParseError>, ghost all: AllOutcome)
      requires desired == seriesFilter.desiredSeries
      modifies this`areHeadersVerified, this`log, seriesFilter`series
      ensures err.Some? ==> ParseFiles(old(areHeadersVerified), old(seriesFilter.series), parts, fs, desired, processFilter) == Failure(err.value)
      ensures err.None? ==>
        && ParseFiles(old(areHeadersVerified), old(seriesFilter.series), parts, fs, desired, processFilter) == Success(all)
        && (forall k :: 0 <= k < |result| ==> fresh(result[k]))
        && Distinct(result)
        && Values(result) == all.processes
        && areHeadersVerified == all.verified
        && seriesFilter.series == all.resolved
        && log == old(log) + all.messages
    {
      ghost var verified0, resolved0, log0 := areHeadersVerified, seriesFilter.series, log;
      result, err := [], None;
      all := AllOutcome(areHeadersVerified, seriesFilter.series, [], []);
      var i := 0;
      while i < |parts|
        invariant 0 <= i <= |parts|
        invariant ParseFiles(verified0, resolved0, parts[..i], fs, desired, processFilter) == Success(all)
        invariant all.verified == areHeadersVerified && all.resolved == seriesFilter.series
        invariant log == log0 + all.messages
        invariant Values(result) == all.processes
        invariant Distinct(result)
        invariant forall k :: 0 <= k < |result| ==> fresh(result[k])
        invariant err == None
      {
        var added, e, all' := ParseNext(parts, i, fs, desired, verified0, resolved0, log0, all);
        if e.Some? {
          return result, e, all;
        }
        forall a, b | 0 <= a < |result| && 0 <= b < |added|
          ensures result[a] != added[b]
        {
          assert fresh(added[b]);
        }
        DistinctAppend(result, added);
        ValuesAppend(result, added);
        result, all := result + added, all';
        i := i + 1;
      }
      assert parts[..i] == parts;
    }

    /**
      `ParseLogs(paths)`: `ParseLog` for each comma-separated path in turn,
      then all processes sorted by name, log file and id.
    */
    method ParseLogs(paths: string, fs: FileSystem) returns (r: Result<seq<Process>, ParseError>)
      modifies this`areHeadersVerified, this`log, seriesFilter`series
      ensures match ParseFiles(old(areHeadersVerified), old(seriesFilter.series), Split(paths, {','}), fs,
                               seriesFilter.desiredSeries, processFilter)
        case Failure(e) => r == Failure(e)
        case Success(all) =>
          && r.Success?
          && (forall k :: 0 <= k < |r.value| ==> fresh(r.value[k]))
          && Distinct(r.value)
          && SortedUpTo(r.value, |r.value|, SortKey)
          && multiset(Values(r.value)) == multiset(all.processes)
          && areHeadersVerified == all.verified
          && seriesFilter.series == all.resolved
          && log == old(log) + all.messages
    {
      var result, err, all := ParseEach(Split(paths, {','}), fs, seriesFilter.desiredSeries);
      if err.Some? {
        return Failure(err.value);
      }
      var sorted := SortProcesses(result);
      ValuesPermutation(result, sorted);
      DistinctPermutation(result, sorted);
      forall k | 0 <= k < |sorted|
        ensures fresh(sorted[k])
      {
        assert sorted[k] in multiset(result);
      }
      r := Success(sorted);
    }
  }
}
