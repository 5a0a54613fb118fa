/**
  `LogParser` of the earlier Python implementation (`plot_complus.py`). It
  reads the rows of each file like the C# parser, with these differences:
  rows need only three fields, processes are keyed by `Name(Id)` and the
  file's base name, an accepted data row builds a `Process` before looking
  the key up (so a field with fewer than two parentheses raises
  `ValueError`), and the files' dicts are merged with `dict.update`, so a
  later file overwrites the processes of an earlier one under the same key.
  The merged processes are sorted with Python's stable `sorted`.
*/
module PythonLogParser {
  import opened Wrappers
  import opened Strings
  import opened SeriesTypes
  import opened SeriesFilters
  import opened Processes
  import opened PythonComponents
  import LogParsers
  import LogParserProperties

  /** A process as the parser holds it in its dicts. */
  datatype PyProcessValue = PyProcessValue(
    processName: string,
    processId: string,
    logFilename: string,
    id: string,
    timeSeries: seq<string>,
    series: map<string, seq<real>>)

  /** `Process(name_n_id, filename)`: no timestamps and no series yet, or the `ValueError` of the split. */
  function NewPyProcessValue(nameAndId: string, logFilename: string): Result<PyProcessValue, PyError>
  {
    match PySplitNameAndId(nameAndId)
    case Failure(e) => Failure(e)
    case Success(parts) =>
      Success(PyProcessValue(parts.0, parts.1, logFilename, ComposeId(nameAndId, logFilename), [], map[]))
  }

  /** The rows `csv.reader` yields for each existing path; a path that is not a key does not exist. */
  type PyFileSystem = map<string, seq<seq<string>>>

  /** A row with fewer fields than this is skipped. */
  const PyMinFields: nat := 3

  const PathSeparators: set<char> := {'/', '\\'}

  /** `os.path.basename`: the text after the last path separator. */
  function Basename(path: string): (name: string)
    ensures NoneIn(name, PathSeparators)
    ensures |name| <= |path| && name == path[|path| - |name|..]
    ensures |name| < |path| ==> path[|path| - |name| - 1] in PathSeparators
  {
    SplitLastPiece(path, PathSeparators);
    var pieces := Split(path, PathSeparators);
    pieces[|pieces| - 1]
  }

  /** What `parse_logs` prints for a path that does not exist. */
  function DoesNotExist(path: string): string
  {
    "<" + path + "> does not exist!"
  }

  /** What reading one file has built so far: the parser's flag, the resolved series, the file's dict. */
  datatype PyFileState = PyFileState(
    verified: bool,
    resolved: seq<Series>,
    procs: map<string, PyProcessValue>,
    order: seq<string>)

  /** `p.set(s.name, s.transform(line[s.index]))` for each resolved series `s`, in order. */
  function PyAppendValues(series: map<string, seq<real>>, resolved: seq<Series>, row: seq<string>): map<string, seq<real>>
    requires LogParsers.InRange(resolved, row)
    decreases |resolved|
  {
    if resolved == [] then series
    else
      var s := resolved[|resolved| - 1];
      SetValue(PyAppendValues(series, resolved[..|resolved| - 1], row), s.name, PyTransform(s.kind, Some(row[s.position])))
  }

  /** One more resolved series in range sets one more value. */
  lemma PyAppendValuesSnoc(series: map<string, seq<real>>, resolved: seq<Series>, k: nat, row: seq<string>)
    requires k < |resolved| && LogParsers.InRange(resolved[..k], row) && resolved[k].position < |row|
    ensures LogParsers.InRange(resolved[..k + 1], row)
    ensures PyAppendValues(series, resolved[..k + 1], row) ==
      SetValue(PyAppendValues(series, resolved[..k], row), resolved[k].name, PyTransform(resolved[k].kind, Some(row[resolved[k].position])))
  {
    var prefix := resolved[..k + 1];
    assert prefix[..k] == resolved[..k] && prefix[k] == resolved[k];
  }

  /** A data row sets the same values in both programs. */
  lemma {:induction false} PyAppendValuesAgree(series: map<string, seq<real>>, resolved: seq<Series>, row: seq<string>)
    requires LogParsers.InRange(resolved, row)
    ensures PyAppendValues(series, resolved, row) == LogParsers.AppendValues(series, resolved, row)
    decreases |resolved|
  {
    if resolved != [] {
      var s := resolved[|resolved| - 1];
      PyAppendValuesAgree(series, resolved[..|resolved| - 1], row);
      PyTransformAgrees(s, Some(row[s.position]));
    }
  }

  /** A header row: the series are resolved only while the flag is down. */
  function PyHeaderRow(st: PyFileState, row: seq<string>, desired: seq<DesiredSeries>): Result<PyFileState, PyError>
  {
    if st.verified then Success(st)
    else
      var resolved := st.resolved + Resolve(desired, row);
      if resolved == [] then Failure(UsageError)
      else Success(st.(verified := true, resolved := resolved))
  }

  /**
    A data row whose `Name(Id)` the filter accepts: `setdefault` files a new
    process under the key when absent, and a non-empty timestamp appends the
    timestamp and one value per resolved series.
  */
  function PyDataRow(st: PyFileState, row: seq<string>, filename: string): Result<PyFileState, PyError>
    requires |row| >= PyMinFields
  {
    var nameAndId := row[2];
    match NewPyProcessValue(nameAndId, filename)
    case Failure(e) => Failure(e)
    case Success(created) =>
      var id := ComposeId(nameAndId, filename);
      var p := if id in st.procs then st.procs[id] else created;
      var order := if id in st.procs then st.order else st.order + [id];
      var time := row[0];
      if |time| == 0 then Success(st.(procs := st.procs[id := p], order := order))
      else if !LogParsers.InRange(st.resolved, row) then Failure(IndexError)
      else
        var q := p.(timeSeries := p.timeSeries + [time], series := PyAppendValues(p.series, st.resolved, row));
        Success(st.(procs := st.procs[id := q], order := order))
  }

  /** One row: too short, a header, or data. */
  function PyParseRow(st: PyFileState, row: seq<string>, filename: string,
                      desired: seq<DesiredSeries>, filter: PyProcessFilter): Result<PyFileState, PyError>
  {
    if |row| < PyMinFields then Success(st)
    else if row[0] == LogParsers.HeaderTag then PyHeaderRow(st, row, desired)
    else if !PyContains(filter, row[2]) then Success(st)
    else PyDataRow(st, row, filename)
  }

  /** The rows of a file, first to last; the first exception ends it. */
  function PyParseRows(st: PyFileState, rows: seq<seq<string>>, filename: string,
                       desired: seq<DesiredSeries>, filter: PyProcessFilter): Result<PyFileState, PyError>
    decreases |rows|
  {
    if rows == [] then Success(st)
    else
      match PyParseRows(st, rows[..|rows| - 1], filename, desired, filter)
      case Failure(e) => Failure(e)
      case Success(s) => PyParseRow(s, rows[|rows| - 1], filename, desired, filter)
  }

  /** The keys of `keys` that `procs` lacks, in order: what `update` adds to the key order. */
  function NewKeys(keys: seq<string>, procs: map<string, PyProcessValue>): (r: seq<string>)
    ensures forall k :: k in r <==> k in keys && k !in procs
    ensures (forall i, j :: 0 <= i < j < |keys| ==> keys[i] != keys[j]) ==>
              forall i, j :: 0 <= i < j < |r| ==> r[i] != r[j]
    decreases |keys|
  {
    if keys == [] then []
    else
      var init, k := keys[..|keys| - 1], keys[|keys| - 1];
      assert forall i :: 0 <= i < |init| ==> init[i] == keys[i];
      NewKeys(init, procs) + (if k in procs then [] else [k])
  }

  /** The state of a whole call: flag, series, the merged dict with its key order, and what was printed. */
  datatype PyRun = PyRun(
    verified: bool,
    resolved: seq<Series>,
    procs: map<string, PyProcessValue>,
    order: seq<string>,
    messages: seq<string>)

  /**
    One path of `parse_logs`: a missing path is printed and skipped; an
    existing one is parsed into its own dict, which then overwrites the
    merged dict key by key.
  */
  function PyParseFile(run: PyRun, path: string, fs: PyFileSystem,
                       desired: seq<DesiredSeries>, filter: PyProcessFilter): Result<PyRun, PyError>
  {
    if path == "" then Failure(IOError)
    else if path !in fs then Success(run.(messages := run.messages + [DoesNotExist(path)]))
    else
      match PyParseRows(PyFileState(run.verified, run.resolved, map[], []), fs[path], Basename(path), desired, filter)
      case Failure(e) => Failure(e)
      case Success(st) =>
        Success(PyRun(st.verified, st.resolved, run.procs + st.procs, run.order + NewKeys(st.order, run.procs), run.messages))
  }

  /** The paths of `parse_logs`, in order; the first exception ends the call. */
  function PyParseFiles(verified: bool, resolved: seq<Series>, paths: seq<string>, fs: PyFileSystem,
                        desired: seq<DesiredSeries>, filter: PyProcessFilter): Result<PyRun, PyError>
    decreases |paths|
  {
    if paths == [] then Success(PyRun(verified, resolved, map[], [], []))
    else
      match PyParseFiles(verified, resolved, paths[..|paths| - 1], fs, desired, filter)
      case Failure(e) => Failure(e)
      case Success(run) => PyParseFile(run, paths[|paths| - 1], fs, desired, filter)
  }

  /**
    `processes.values()`: each process of the dict once. The model lists them
    in the order their keys were first inserted; Python 2 enumerates a dict in
    hash order, so only the multiset of this list stands for the source.
  */
  function InKeyOrder(procs: map<string, PyProcessValue>, order: seq<string>): (s: seq<PyProcessValue>)
    requires forall k :: 0 <= k < |order| ==> order[k] in procs
    ensures |s| == |order|
    ensures forall k :: 0 <= k < |order| ==> s[k] == procs[order[k]]
  {
    seq(|order|, k requires 0 <= k < |order| => procs[order[k]])
  }

  // ------------------------------------------------------------------ sorting

  /** The sort key "name filename pid", the id as text. */
  function PyKey(p: PyProcessValue): string
  {
    p.processName + " " + p.logFilename + " " + p.processId
  }

  predicate SortedByPyKey(s: seq<PyProcessValue>)
  {
    forall i, j :: 0 <= i < j < |s| ==> LexLe(PyKey(s[i]), PyKey(s[j]))
  }

  /** Puts `p` after the last element whose key is at most its own. */
  function Insert(sorted: seq<PyProcessValue>, p: PyProcessValue): (r: seq<PyProcessValue>)
    ensures multiset(r) == multiset(sorted) + multiset{p}
    decreases |sorted|
  {
    if sorted == [] then [p]
    else
      var init, last := sorted[..|sorted| - 1], sorted[|sorted| - 1];
      assert sorted == init + [last];
      if LexLe(PyKey(last), PyKey(p)) then sorted + [p]
      else Insert(init, p) + [last]
  }

  /**
    `sorted(values, key=...)`: Python's sort is stable, so it is the
    insertion sort that places each element after the equal keys before it.
  */
  function SortedByKey(s: seq<PyProcessValue>): (r: seq<PyProcessValue>)
    ensures multiset(r) == multiset(s)
    decreases |s|
  {
    if s == [] then []
    else
      assert s == s[..|s| - 1] + [s[|s| - 1]];
      Insert(SortedByKey(s[..|s| - 1]), s[|s| - 1])
  }

  /** Every key of `s` is at most `bound`. */
  predicate AllAtMost(s: seq<PyProcessValue>, bound: string)
  {
    forall i :: 0 <= i < |s| ==> LexLe(PyKey(s[i]), bound)
  }

  lemma SortedSnoc(s: seq<PyProcessValue>, x: PyProcessValue)
    requires SortedByPyKey(s) && AllAtMost(s, PyKey(x))
    ensures SortedByPyKey(s + [x])
  {
  }

  /** Inserting into a sorted sequence keeps it sorted. */
  lemma {:induction false} InsertSorted(sorted: seq<PyProcessValue>, p: PyProcessValue)
    requires SortedByPyKey(sorted)
    ensures SortedByPyKey(Insert(sorted, p))
    decreases |sorted|
  {
    if sorted != [] {
      var init, last := sorted[..|sorted| - 1], sorted[|sorted| - 1];
      if LexLe(PyKey(last), PyKey(p)) {
        forall i | 0 <= i < |sorted|
          ensures LexLe(PyKey(sorted[i]), PyKey(p))
        {
          if i < |sorted| - 1 {
            LexLeTransitive(PyKey(sorted[i]), PyKey(last), PyKey(p));
          }
        }
        SortedSnoc(sorted, p);
      } else {
        LexLeTotal(PyKey(last), PyKey(p));
        InsertSorted(init, p);
        var r := Insert(init, p);
        forall i | 0 <= i < |r|
          ensures LexLe(PyKey(r[i]), PyKey(last))
        {
          assert r[i] in multiset(r);
          if r[i] != p {
            assert r[i] in multiset(init);
            var j :| 0 <= j < |init| && init[j] == r[i];
            assert sorted[j] == r[i];
          }
        }
        SortedSnoc(r, last);
      }
    }
  }

  /** The result of `sorted` is ordered by the key. */
  lemma {:induction false} SortedByKeySorted(s: seq<PyProcessValue>)
    ensures SortedByPyKey(SortedByKey(s))
    decreases |s|
  {
    if s != [] {
      SortedByKeySorted(s[..|s| - 1]);
      InsertSorted(SortedByKey(s[..|s| - 1]), s[|s| - 1]);
    }
  }

  /** Dropping the last element keeps a sequence sorted. */
  lemma SortedInit(s: seq<PyProcessValue>)
    requires SortedByPyKey(s) && s != []
    ensures SortedByPyKey(s[..|s| - 1])
  {
    var init := s[..|s| - 1];
    forall i, j | 0 <= i < j < |init|
      ensures LexLe(PyKey(init[i]), PyKey(init[j]))
    {
      assert init[i] == s[i] && init[j] == s[j];
    }
  }

  lemma InitPlusLast(s: seq<PyProcessValue>)
    requires s != []
    ensures s[..|s| - 1] + [s[|s| - 1]] == s
  {
  }

  /** An element whose key is at least the last key is inserted at the end. */
  lemma InsertAtEnd(sorted: seq<PyProcessValue>, p: PyProcessValue)
    requires sorted != [] ==> LexLe(PyKey(sorted[|sorted| - 1]), PyKey(p))
    ensures Insert(sorted, p) == sorted + [p]
  {
  }

  /** Stability: input already in key order, equal keys included, comes back unchanged. */
  lemma {:induction false} SortedInputUnchanged(s: seq<PyProcessValue>)
    requires SortedByPyKey(s)
    ensures SortedByKey(s) == s
    decreases |s|
  {
    if s != [] {
      var init, last := s[..|s| - 1], s[|s| - 1];
      SortedInit(s);
      SortedInputUnchanged(init);
      if init != [] {
        assert init[|init| - 1] == s[|s| - 2];
        assert LexLe(PyKey(s[|s| - 2]), PyKey(s[|s| - 1]));
      }
      InsertAtEnd(init, last);
      assert SortedByKey(s) == Insert(SortedByKey(init), last);
      InitPlusLast(s);
    }
  }

  /** The key compares ids as text: pid "10" sorts before pid "9". */
  lemma PyPidTenBeforeNine(p: PyProcessValue, q: PyProcessValue)
    requires p.processName == q.processName && p.logFilename == q.logFilename
    requires p.processId == "10" && q.processId == "9"
    ensures LexLe(PyKey(p), PyKey(q)) && !LexLe(PyKey(q), PyKey(p))
  {
    var prefix := p.processName + " " + p.logFilename + " ";
    assert PyKey(p) == prefix + "10" && PyKey(q) == prefix + "9";
    LexLeCommonPrefix(prefix, "10", "9");
    LexLeCommonPrefix(prefix, "9", "10");
  }

  // ------------------------------------------------------------------- parser

  class PyLogParser {
    const processFilter: PyProcessFilter
    const seriesFilter: PySeriesFilter
    var areHeadersVerified: bool
    /** What `parse_logs` printed, oldest first. */
    ghost var log: seq<string>

    constructor (processFilter: PyProcessFilter, seriesFilter: PySeriesFilter)
      ensures this.processFilter == processFilter && this.seriesFilter == seriesFilter
      ensures !areHeadersVerified && log == []
    {
      this.processFilter := processFilter;
      this.seriesFilter := seriesFilter;
      areHeadersVerified := false;
      log := [];
    }

    /** The state the pure model describes, for a file's dict. */
    function FileState(procs: map<string, PyProcessValue>, order: seq<string>): PyFileState
      reads this, seriesFilter
    {
      PyFileState(areHeadersVerified, seriesFilter.series, procs, order)
    }

    /** The `for s in self.series_filter.series` loop; `ok` is false where `line[s.index]` raises. */
    method SetSeriesValues(series: map<string, seq<real>>, row: seq<string>)
      returns (series': map<string, seq<real>>, ok: bool)
      ensures ok <==> LogParsers.InRange(seriesFilter.series, row)
      ensures ok ==> series' == PyAppendValues(series, seriesFilter.series, row)
    {
      var resolved := seriesFilter.series;
      series' := series;
      for k := 0 to |resolved|
        invariant LogParsers.InRange(resolved[..k], row)
        invariant series' == PyAppendValues(series, resolved[..k], row)
      {
        var s := resolved[k];
        if s.position >= |row| {
          assert !LogParsers.InRange(resolved, row) by {
            assert resolved[k].position >= |row|;
          }
          return series', false;
        }
        PyAppendValuesSnoc(series, resolved, k, row);
        series' := SetValue(series', s.name, PyTransform(s.kind, Some(row[s.position])));
      }
      assert resolved[..|resolved|] == resolved;
      ok := true;
    }

    /** The data branch of `_get_processes_in_log`, for a row the filter accepts. */
    method ReadDataRow(row: seq<string>, filename: string, procs: map<string, PyProcessValue>, order: seq<string>)
      returns (procs': map<string, PyProcessValue>, order': seq<string>, err: Option<PyError>)
      requires |row| >= PyMinFields
      ensures match PyDataRow(FileState(procs, order), row, filename)
        case Failure(e) => err == Some(e)
        case Success(next) => err == None && next == FileState(procs', order')
    {
      procs', order', err := procs, order, None;
      var nameAndId := row[2];
      var created := NewPyProcessValue(nameAndId, filename);
      if created.Failure? {
        return procs, order, Some(created.error);
      }
      var id := ComposeId(nameAndId, filename);
      var p := created.value;
      if id in procs {
        p := procs[id];
      } else {
        order' := order + [id];
      }
      var time := row[0];
      if |time| > 0 {
        var values, ok := SetSeriesValues(p.series, row);
        if !ok {
          return procs, order, Some(IndexError);
        }
        p := p.(timeSeries := p.timeSeries + [time], series := values);
      }
      procs' := procs[id := p];
    }

    /** One row of the loop of `_get_processes_in_log`. */
    method ReadRow(row: seq<string>, filename: string, procs: map<string, PyProcessValue>, order: seq<string>)
      returns (procs': map<string, PyProcessValue>, order': seq<string>, err: Option<PyError>)
      modifies this`areHeadersVerified, seriesFilter`series
      ensures match PyParseRow(old(FileState(procs, order)), row, filename, seriesFilter.userDesiredSeries, processFilter)
        case Failure(e) => err == Some(e)
        case Success(next) => err == None && next == FileState(procs', order')
    {
      procs', order', err := procs, order, None;
      if |row| < PyMinFields {
      } else if row[0] == LogParsers.HeaderTag {
        if !areHeadersVerified {
          var ok := seriesFilter.Initialize(row);
          if !ok {
            return procs, order, Some(UsageError);
          }
          areHeadersVerified := true;
        }
      } else if PyContains(processFilter, row[2]) {
        procs', order', err := ReadDataRow(row, filename, procs, order);
      }
    }

    /** Once some rows have raised, the whole file raises the same. */
    lemma {:induction false} RowsFailurePersists(st: PyFileState, rows: seq<seq<string>>, i: nat, filename: string)
      requires i <= |rows| && PyParseRows(st, rows[..i], filename, seriesFilter.userDesiredSeries, processFilter).Failure?
      ensures PyParseRows(st, rows, filename, seriesFilter.userDesiredSeries, processFilter)
           == PyParseRows(st, rows[..i], filename, seriesFilter.userDesiredSeries, processFilter)
      decreases |rows|
    {
      if i < |rows| {
        assert rows[..|rows| - 1][..i] == rows[..i];
        RowsFailurePersists(st, rows[..|rows| - 1], i, filename);
      } else {
        assert rows[..i] == rows;
      }
    }

    /** `_get_processes_in_log(path)` on the rows of the file: its dict, or the exception that ends it. */
    method GetProcessesInLog(path: string, rows: seq<seq<string>>)
      returns (procs: map<string, PyProcessValue>, order: seq<string>, err: Option<PyError>)
      modifies this`areHeadersVerified, seriesFilter`series
      ensures match PyParseRows(old(FileState(map[], [])), rows, Basename(path), seriesFilter.userDesiredSeries, processFilter)
        case Failure(e) => err == Some(e)
        case Success(st) => err == None && st == FileState(procs, order)
    {
      var filename := Basename(path);
      ghost var start := FileState(map[], []);
      ghost var desired := seriesFilter.userDesiredSeries;
      procs, order, err := map[], [], None;
      var i := 0;
      while i < |rows|
        invariant 0 <= i <= |rows|
        invariant PyParseRows(start, rows[..i], filename, desired, processFilter) == Success(FileState(procs, order))
        invariant err == None
      {
        assert rows[..i + 1][..i] == rows[..i];
        procs, order, err := ReadRow(rows[i], filename, procs, order);
        if err.Some? {
          RowsFailurePersists(start, rows, i + 1, filename);
          return;
        }
        i := i + 1;
      }
      assert rows[..i] == rows;
    }

    /** Once some paths have raised, the whole call raises the same. */
    lemma {:induction false} FilesFailurePersists(verified: bool, resolved: seq<Series>, paths: seq<string>, i: nat, fs: PyFileSystem)
      requires i <= |paths|
      requires PyParseFiles(verified, resolved, paths[..i], fs, seriesFilter.userDesiredSeries, processFilter).Failure?
      ensures PyParseFiles(verified, resolved, paths, fs, seriesFilter.userDesiredSeries, processFilter)
           == PyParseFiles(verified, resolved, paths[..i], fs, seriesFilter.userDesiredSeries, processFilter)
      decreases |paths|
    {
      if i < |paths| {
        assert paths[..|paths| - 1][..i] == paths[..i];
        FilesFailurePersists(verified, resolved, paths[..|paths| - 1], i, fs);
      } else {
        assert paths[..i] == paths;
      }
    }

    /**
      The `for path in paths` loop of `parse_logs`: a missing path is printed
      and skipped, an existing one parsed and merged with `update`.
    */
    method ParseEach(paths: seq<string>, fs: PyFileSystem)
      returns (procs: map<string, PyProcessValue>, order: seq<string>, err: Option<PyError>)
      modifies this`areHeadersVerified, this`log, seriesFilter`series
      ensures match PyParseFiles(old(areHeadersVerified), old(seriesFilter.series), paths, fs,
                                 seriesFilter.userDesiredSeries, processFilter)
        case Failure(e) => err == Some(e)
        case Success(run) =>
          && err == None
          && run == PyRun(areHeadersVerified, seriesFilter.series, procs, order, run.messages)
          && log == old(log) + run.messages
    {
      ghost var verified0, resolved0 := areHeadersVerified, seriesFilter.series;
      ghost var desired := seriesFilter.userDesiredSeries;
      procs, order, err := map[], [], None;
      ghost var messages: seq<string> := [];
      var i := 0;
      while i < |paths|
        invariant 0 <= i <= |paths|
        invariant PyParseFiles(verified0, resolved0, paths[..i], fs, desired, processFilter)
               == Success(PyRun(areHeadersVerified, seriesFilter.series, procs, order, messages))
        invariant log == old(log) + messages
        invariant err == None
      {
        assert paths[..i + 1][..i] == paths[..i];
        var path := paths[i];
        if path == "" {
          FilesFailurePersists(verified0, resolved0, paths, i + 1, fs);
          return procs, order, Some(IOError);
        }
        if path !in fs {
          log := log + [DoesNotExist(path)];
          messages := messages + [DoesNotExist(path)];
        } else {
          var partial, partialOrder, e := GetProcessesInLog(path, fs[path]);
          if e.Some? {
            FilesFailurePersists(verified0, resolved0, paths, i + 1, fs);
            return procs, order, e;
          }
          procs, order := procs + partial, order + NewKeys(partialOrder, procs);
        }
        i := i + 1;
      }
      assert paths[..i] == paths;
    }

    /**
      `parse_logs(raw_paths)`: every comma-separated path in turn, then the
      merged processes sorted by name, file name and id text.
    */
    method ParseLogs(rawPaths: string, fs: PyFileSystem) returns (r: Result<seq<PyProcessValue>, PyError>)
      modifies this`areHeadersVerified, this`log, seriesFilter`series
      ensures match PyParseFiles(old(areHeadersVerified), old(seriesFilter.series), Split(rawPaths, {','}), fs,
                                 seriesFilter.userDesiredSeries, processFilter)
        case Failure(e) => r == Failure(e)
        case Success(run) =>
          && (forall k :: 0 <= k < |run.order| ==> run.order[k] in run.procs)
          && r.Success? && SortedByPyKey(r.value)
          && multiset(r.value) == multiset(InKeyOrder(run.procs, run.order))
          && areHeadersVerified == run.verified && seriesFilter.series == run.resolved
          && log == old(log) + run.messages
    {
      var procs, order, err := ParseEach(Split(rawPaths, {','}), fs);
      if err.Some? {
        return Failure(err.value);
      }
      PyParseFilesWellKeyed(old(areHeadersVerified), old(seriesFilter.series), Split(rawPaths, {','}), fs,
                            seriesFilter.userDesiredSeries, processFilter);
      r := Success(SortedByKey(InKeyOrder(procs, order)));
      SortedByKeySorted(InKeyOrder(procs, order));
    }
  }

  // ------------------------------------------------------------------ lemmas

  /**
    The dict and its key order agree: the same keys, each listed once, and
    every process filed under its own id.
  */
  ghost predicate WellKeyed(procs: map<string, PyProcessValue>, order: seq<string>)
  {
    && (forall k :: k in procs <==> k in order)
    && (forall i, j :: 0 <= i < j < |order| ==> order[i] != order[j])
    && (forall k :: k in procs ==> procs[k].id == k)
  }

  lemma PyParseRowWellKeyed(st: PyFileState, row: seq<string>, filename: string,
                            desired: seq<DesiredSeries>, filter: PyProcessFilter)
    requires WellKeyed(st.procs, st.order)
    ensures var r := PyParseRow(st, row, filename, desired, filter);
      r.Success? ==> WellKeyed(r.value.procs, r.value.order)
  {
    if |row| >= PyMinFields && row[0] != LogParsers.HeaderTag && PyContains(filter, row[2]) {
      PyDataRowWellKeyed(st, row, filename);
    }
  }

  /** A data row files its process under its own id, listing a new id once. */
  lemma PyDataRowWellKeyed(st: PyFileState, row: seq<string>, filename: string)
    requires |row| >= PyMinFields && WellKeyed(st.procs, st.order)
    ensures var r := PyDataRow(st, row, filename);
      r.Success? ==> WellKeyed(r.value.procs, r.value.order)
  {
    var r := PyDataRow(st, row, filename);
    if r.Success? {
      var id := ComposeId(row[2], filename);
      var procs, order := r.value.procs, r.value.order;
      assert procs == st.procs[id := procs[id]] && procs[id].id == id;
      assert order == if id in st.procs then st.order else st.order + [id];
      forall k
        ensures k in procs <==> k in order
      {
        if k != id {
          assert k in order <==> k in st.order;
        }
      }
      forall k | k in procs
        ensures procs[k].id == k
      {
        if k != id {
          assert procs[k] == st.procs[k];
        }
      }
      if id !in st.procs {
        forall i, j | 0 <= i < j < |order|
          ensures order[i] != order[j]
        {
          if j == |st.order| {
            assert order[i] == st.order[i];
          }
        }
      }
    }
  }

  lemma {:induction false} PyParseRowsWellKeyed(st: PyFileState, rows: seq<seq<string>>, filename: string,
                                                desired: seq<DesiredSeries>, filter: PyProcessFilter)
    requires WellKeyed(st.procs, st.order)
    ensures var r := PyParseRows(st, rows, filename, desired, filter);
      r.Success? ==> WellKeyed(r.value.procs, r.value.order)
    decreases |rows|
  {
    if rows != [] {
      PyParseRowsWellKeyed(st, rows[..|rows| - 1], filename, desired, filter);
      match PyParseRows(st, rows[..|rows| - 1], filename, desired, filter)
      case Failure(_) =>
      case Success(s) => PyParseRowWellKeyed(s, rows[|rows| - 1], filename, desired, filter);
    }
  }

  /** `update` of one well-keyed dict by another is well keyed. */
  lemma UpdateWellKeyed(procs: map<string, PyProcessValue>, order: seq<string>,
                        partial: map<string, PyProcessValue>, partialOrder: seq<string>)
    requires WellKeyed(procs, order) && WellKeyed(partial, partialOrder)
    ensures WellKeyed(procs + partial, order + NewKeys(partialOrder, procs))
  {
    var added := NewKeys(partialOrder, procs);
    var all := order + added;
    forall i, j | 0 <= i < j < |all|
      ensures all[i] != all[j]
    {
      if j >= |order| && i < |order| {
        assert all[j] in added && all[i] in order;
      }
    }
  }

  /**
    Every call that succeeds ends with a well-keyed dict: one process per key
    `Name(Id) filename`, so the result holds no two processes with the same
    `Name(Id)` and base file name, however many files share them.
  */
  lemma {:induction false} PyParseFilesWellKeyed(verified: bool, resolved: seq<Series>, paths: seq<string>, fs: PyFileSystem,
                                                 desired: seq<DesiredSeries>, filter: PyProcessFilter)
    ensures var r := PyParseFiles(verified, resolved, paths, fs, desired, filter);
      r.Success? ==> WellKeyed(r.value.procs, r.value.order)
    decreases |paths|
  {
    if paths != [] {
      PyParseFilesWellKeyed(verified, resolved, paths[..|paths| - 1], fs, desired, filter);
      match PyParseFiles(verified, resolved, paths[..|paths| - 1], fs, desired, filter)
      case Failure(_) =>
      case Success(run) =>
        var path := paths[|paths| - 1];
        if path != "" && path in fs {
          var start := PyFileState(run.verified, run.resolved, map[], []);
          PyParseRowsWellKeyed(start, fs[path], Basename(path), desired, filter);
          match PyParseRows(start, fs[path], Basename(path), desired, filter)
          case Failure(_) =>
          case Success(st) => UpdateWellKeyed(run.procs, run.order, st.procs, st.order);
        }
    }
  }

  /** In a well-keyed dict the processes listed in key order have distinct ids. */
  lemma OneProcessPerKey(procs: map<string, PyProcessValue>, order: seq<string>)
    requires WellKeyed(procs, order)
    ensures var s := InKeyOrder(procs, order);
      forall i, j :: 0 <= i < j < |s| ==> s[i].id != s[j].id
  {
  }

  /**
    A later file overwrites: after an existing path is parsed, each key of its
    dict holds the process that file built, and every other key keeps the
    process it had.
  */
  lemma LaterFileWins(run: PyRun, path: string, fs: PyFileSystem, desired: seq<DesiredSeries>,
                      filter: PyProcessFilter, st: PyFileState)
    requires path != "" && path in fs
    requires PyParseRows(PyFileState(run.verified, run.resolved, map[], []), fs[path], Basename(path), desired, filter) == Success(st)
    ensures var r := PyParseFile(run, path, fs, desired, filter);
      && r.Success?
      && (forall k :: k in st.procs ==> k in r.value.procs && r.value.procs[k] == st.procs[k])
      && (forall k :: k in run.procs && k !in st.procs ==> k in r.value.procs && r.value.procs[k] == run.procs[k])
  {
  }

  /** Two paths with the same base name file the same `Name(Id)` under one key. */
  lemma SameBasenameSameKey(nameAndId: string, path1: string, path2: string)
    requires Basename(path1) == Basename(path2)
    ensures ComposeId(nameAndId, Basename(path1)) == ComposeId(nameAndId, Basename(path2))
  {
  }

  /** A missing path prints one message and changes nothing else. */
  lemma PyMissingPathPrinted(run: PyRun, path: string, fs: PyFileSystem, desired: seq<DesiredSeries>, filter: PyProcessFilter)
    requires path != "" && path !in fs
    ensures PyParseFile(run, path, fs, desired, filter) == Success(run.(messages := run.messages + [DoesNotExist(path)]))
  {
  }

  /** Once the flag is up, no row of a file changes it or the resolved series. */
  lemma {:induction false} PyHeaderAppliedOnce(st: PyFileState, rows: seq<seq<string>>, filename: string,
                                               desired: seq<DesiredSeries>, filter: PyProcessFilter)
    requires st.verified
    ensures var r := PyParseRows(st, rows, filename, desired, filter);
      r.Success? ==> r.value.verified && r.value.resolved == st.resolved
    decreases |rows|
  {
    if rows != [] {
      PyHeaderAppliedOnce(st, rows[..|rows| - 1], filename, desired, filter);
    }
  }

  /**
    A data row the filter accepts: `ValueError` when its `Name(Id)` has fewer
    than two parentheses; otherwise its process exists afterwards, created
    only when absent, an empty timestamp appends nothing and any other
    appends the timestamp, or raises `IndexError` when a column is missing.
  */
  lemma PyDataRowOutcome(st: PyFileState, row: seq<string>, filename: string,
                         desired: seq<DesiredSeries>, filter: PyProcessFilter)
    requires |row| >= PyMinFields && row[0] != LogParsers.HeaderTag && PyContains(filter, row[2])
    ensures var r := PyParseRow(st, row, filename, desired, filter);
      var id := ComposeId(row[2], filename);
      && (r == Failure(ValueError) <==> CountIn(row[2], Parens) < 2)
      && (r == Failure(IndexError) <==> CountIn(row[2], Parens) >= 2 && |row[0]| > 0 && !LogParsers.InRange(st.resolved, row))
      && (r.Success? ==>
            && r.value.procs.Keys == st.procs.Keys + {id}
            && (forall k :: k in st.procs && k != id ==> r.value.procs[k] == st.procs[k])
            && (id in st.procs && |row[0]| == 0 ==> r.value.procs[id] == st.procs[id])
            && (id !in st.procs && |row[0]| == 0 ==> r.value.procs[id].timeSeries == [])
            && (id in st.procs && |row[0]| > 0 ==> r.value.procs[id].timeSeries == st.procs[id].timeSeries + [row[0]])
            && (id !in st.procs && |row[0]| > 0 ==> r.value.procs[id].timeSeries == [row[0]]))
  {
  }

  /**
    The two programs disagree on rows of exactly three fields: for a data
    row, the C# parser skips the comma-joined line, while the Python parser
    records the timestamp.
  */
  lemma ThreeFieldRowsDiffer(row: seq<string>, cst: LogParsers.FileState, pst: PyFileState, path: string,
                             desired: seq<DesiredSeries>, cfilter: ProcessFilters.ProcessFilter,
                             pfilter: PyProcessFilter)
    requires |row| == 3 && forall k :: 0 <= k < 3 ==> NoneIn(row[k], {','})
    requires row[0] != LogParsers.HeaderTag && |row[0]| > 0
    requires PyContains(pfilter, row[2]) && CountIn(row[2], Parens) >= 2
    requires LogParsers.InRange(pst.resolved, row)
    ensures LogParsers.ParseLine(cst, Join(row, ","), path, desired, cfilter) == Success(cst)
    ensures var r := PyParseRow(pst, row, Basename(path), desired, pfilter);
      && r.Success?
      && |r.value.procs[ComposeId(row[2], Basename(path))].timeSeries| > 0
  {
    SplitJoin(row, ',');
    assert "," == [','];
  }

  // ------------------------------------------------ series in step with time

  /** No series of the process has more values than the process has timestamps. */
  predicate PyBounded(p: PyProcessValue)
  {
    forall name :: name in p.series ==> |p.series[name]| <= |p.timeSeries|
  }

  /** Distinct resolved names, nothing resolved before the first header, every process bounded. */
  predicate PyBoundedState(st: PyFileState)
  {
    && LogParserProperties.NamesDistinct(st.resolved)
    && (!st.verified ==> st.resolved == [])
    && forall id :: id in st.procs ==> PyBounded(st.procs[id])
  }

  /** A data row appends one timestamp and at most one value per series: the process stays bounded. */
  lemma PyDataRowKeepsBounded(st: PyFileState, row: seq<string>, filename: string)
    requires |row| >= PyMinFields && PyBoundedState(st)
    ensures var r := PyDataRow(st, row, filename);
      r.Success? ==> PyBoundedState(r.value)
  {
    match NewPyProcessValue(row[2], filename)
    case Failure(_) =>
    case Success(created) =>
      var id := ComposeId(row[2], filename);
      var p := if id in st.procs then st.procs[id] else created;
      assert PyBounded(p);
      if |row[0]| > 0 && LogParsers.InRange(st.resolved, row) {
        var q := p.(timeSeries := p.timeSeries + [row[0]], series := PyAppendValues(p.series, st.resolved, row));
        PyAppendValuesAgree(p.series, st.resolved, row);
        forall name | name in q.series
          ensures |q.series[name]| <= |q.timeSeries|
        {
          LogParserProperties.AppendValuesCounts(p.series, st.resolved, row, name);
        }
        assert PyDataRow(st, row, filename).value.procs == st.procs[id := q];
      }
  }

  lemma PyParseRowKeepsBounded(st: PyFileState, row: seq<string>, filename: string,
                               desired: seq<DesiredSeries>, filter: PyProcessFilter)
    requires PyBoundedState(st) && LogParserProperties.DesiredDistinct(desired)
    ensures var r := PyParseRow(st, row, filename, desired, filter);
      r.Success? ==> PyBoundedState(r.value)
  {
    if |row| >= PyMinFields {
      if row[0] == LogParsers.HeaderTag {
        if !st.verified {
          LogParserProperties.ResolveNamesDistinct(desired, row);
          assert st.resolved + Resolve(desired, row) == Resolve(desired, row);
        }
      } else if PyContains(filter, row[2]) {
        PyDataRowKeepsBounded(st, row, filename);
      }
    }
  }

  lemma {:induction false} PyParseRowsKeepsBounded(st: PyFileState, rows: seq<seq<string>>, filename: string,
                                                   desired: seq<DesiredSeries>, filter: PyProcessFilter)
    requires PyBoundedState(st) && LogParserProperties.DesiredDistinct(desired)
    ensures var r := PyParseRows(st, rows, filename, desired, filter);
      r.Success? ==> PyBoundedState(r.value)
    decreases |rows|
  {
    if rows != [] {
      PyParseRowsKeepsBounded(st, rows[..|rows| - 1], filename, desired, filter);
      match PyParseRows(st, rows[..|rows| - 1], filename, desired, filter)
      case Failure(_) =>
      case Success(s) => PyParseRowKeepsBounded(s, rows[|rows| - 1], filename, desired, filter);
    }
  }

  /**
    Across all paths of `parse_logs`: given distinct preferred names and a
    parser that has not seen a header, no series of any merged process has
    more values than the process has timestamps.
  */
  lemma {:induction false} PyParseFilesKeepsBounded(verified: bool, resolved: seq<Series>, paths: seq<string>,
                                                    fs: PyFileSystem, desired: seq<DesiredSeries>,
                                                    filter: PyProcessFilter)
    requires LogParserProperties.NamesDistinct(resolved) && (!verified ==> resolved == [])
    requires LogParserProperties.DesiredDistinct(desired)
    ensures var r := PyParseFiles(verified, resolved, paths, fs, desired, filter);
      r.Success? ==>
        && (forall id :: id in r.value.procs ==> PyBounded(r.value.procs[id]))
        && LogParserProperties.NamesDistinct(r.value.resolved)
        && (!r.value.verified ==> r.value.resolved == [])
    decreases |paths|
  {
    if paths != [] {
      var init, path := paths[..|paths| - 1], paths[|paths| - 1];
      PyParseFilesKeepsBounded(verified, resolved, init, fs, desired, filter);
      match PyParseFiles(verified, resolved, init, fs, desired, filter)
      case Failure(_) =>
      case Success(run) =>
        if path != "" && path in fs {
          var start := PyFileState(run.verified, run.resolved, map[], []);
          PyParseRowsKeepsBounded(start, fs[path], Basename(path), desired, filter);
        }
    }
  }
}
