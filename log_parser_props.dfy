/**
  What the log parser promises about a file and a list of files, stated on
  the pure model of `LogParsers`: which lines are ignored, that only the
  first header resolves series, what a data line does to the processes, that
  every series stays in step with the time axis, how a missing file is
  reported, and how the sort key orders ids.
*/
module LogParserProperties {
  import opened Wrappers
  import opened Strings
  import opened Numbers
  import opened SeriesTypes
  import opened SeriesFilters
  import opened ProcessFilters
  import opened Processes
  import opened LogParsers

  /** A line the parser skips: fewer than four fields, or data from a process the filter rejects. */
  predicate Ignored(line: string, filter: ProcessFilter)
  {
    var fields := Split(line, {','});
    |fields| < MinFields || (fields[0] != HeaderTag && !Contains(filter, fields[2]))
  }

  /** Lines that are too short or filtered out change no process, no series and not the header flag. */
  lemma {:induction false} IgnoredLinesChangeNothing(st: FileState, lines: seq<string>, path: string,
                                                     desired: seq<DesiredSeries>, filter: ProcessFilter)
    requires forall k :: 0 <= k < |lines| ==> Ignored(lines[k], filter)
    ensures ParseLines(st, lines, path, desired, filter) == Success(st)
    decreases |lines|
  {
    if lines != [] {
      IgnoredLinesChangeNothing(st, lines[..|lines| - 1], path, desired, filter);
    }
  }

  /**
    A header line never touches the processes. Once the flag is up it changes
    nothing; before that it appends the resolved series and raises the flag,
    and it throws `SeriesNotFound` exactly when nothing has been resolved and
    no desired name is a column.
  */
  lemma HeaderLineOutcome(st: FileState, line: string, path: string,
                          desired: seq<DesiredSeries>, filter: ProcessFilter)
    requires var fields := Split(line, {','}); |fields| >= MinFields && fields[0] == HeaderTag
    ensures var r := ParseLine(st, line, path, desired, filter);
      && (r.Success? ==> r.value.procs == st.procs && r.value.order == st.order && r.value.verified)
      && (st.verified ==> r == Success(st))
      && (!st.verified ==>
            (r == Failure(SeriesNotFound) <==>
               st.resolved == [] && forall k :: 0 <= k < |desired| ==> desired[k].name !in Split(line, {','})))
      && (!st.verified && r.Success? ==> r.value.resolved == st.resolved + Resolve(desired, Split(line, {','})))
  {
    ResolveEmptyIff(desired, Split(line, {','}));
  }

  /** Once the flag is up, no line of a file changes it or the resolved series. */
  lemma {:induction false} HeaderAppliedOnce(st: FileState, lines: seq<string>, path: string,
                                             desired: seq<DesiredSeries>, filter: ProcessFilter)
    requires st.verified
    ensures var r := ParseLines(st, lines, path, desired, filter);
      r.Success? ==> r.value.verified && r.value.resolved == st.resolved
    decreases |lines|
  {
    if lines != [] {
      HeaderAppliedOnce(st, lines[..|lines| - 1], path, desired, filter);
    }
  }

  /** Once the flag is up, headers in later files are ignored as well: the series never change again. */
  lemma {:induction false} HeaderAppliedOnceAcrossFiles(resolved: seq<Series>, paths: seq<string>, fs: FileSystem,
                                                        desired: seq<DesiredSeries>, filter: ProcessFilter)
    ensures var r := ParseFiles(true, resolved, paths, fs, desired, filter);
      r.Success? ==> r.value.verified && r.value.resolved == resolved
    decreases |paths|
  {
    if paths != [] {
      var init := paths[..|paths| - 1];
      HeaderAppliedOnceAcrossFiles(resolved, init, fs, desired, filter);
      var path := paths[|paths| - 1];
      if path != "" && path in fs {
        HeaderAppliedOnce(FileState(true, resolved, map[], []), fs[path].lines, path, desired, filter);
      }
    }
  }

  /**
    A data line the filter accepts: the process keyed by `Name(Id)` and the
    path exists afterwards, created (and appended to the key order) only when
    absent; every other process stays as it was. An empty timestamp appends
    nothing; otherwise the timestamp is appended, or `FieldIndexOutOfRange` is
    thrown when a resolved column is missing from the line.
  */
  lemma DataLineOutcome(st: FileState, line: string, path: string,
                        desired: seq<DesiredSeries>, filter: ProcessFilter)
    requires var fields := Split(line, {','});
      |fields| >= MinFields && fields[0] != HeaderTag && Contains(filter, fields[2])
    ensures var fields := Split(line, {','});
      var r := ParseLine(st, line, path, desired, filter);
      var id := ComposeId(fields[2], path);
      var p := if id in st.procs then st.procs[id] else NewProcessValue(fields[2], path);
      && (r.Failure? <==> |fields[0]| > 0 && !InRange(st.resolved, fields))
      && (r.Failure? ==> r.error == FieldIndexOutOfRange)
      && (r.Success? ==>
            && r.value.procs.Keys == st.procs.Keys + {id}
            && (forall k :: k in st.procs && k != id ==> r.value.procs[k] == st.procs[k])
            && r.value.order == (if id in st.procs then st.order else st.order + [id])
            && r.value.verified == st.verified && r.value.resolved == st.resolved
            && (|fields[0]| == 0 ==> r.value.procs[id] == p)
            && (|fields[0]| > 0 ==> r.value.procs[id].timeSeries == p.timeSeries + [fields[0]]))
  {
  }

  /** No two resolved series share a name. */
  predicate NamesDistinct(resolved: seq<Series>)
  {
    forall i, j :: 0 <= i < j < |resolved| ==> resolved[i].name != resolved[j].name
  }

  /** No name is registered twice with the series filter. */
  predicate DesiredDistinct(desired: seq<DesiredSeries>)
  {
    forall i, j :: 0 <= i < j < |desired| ==> desired[i].name != desired[j].name
  }

  /** Some resolved series has this name. */
  predicate Named(resolved: seq<Series>, name: string)
  {
    exists k :: 0 <= k < |resolved| && resolved[k].name == name
  }

  /** Resolution takes over the distinctness of the registered names. */
  lemma ResolveNamesDistinct(desired: seq<DesiredSeries>, headers: seq<string>)
    requires DesiredDistinct(desired)
    ensures NamesDistinct(Resolve(desired, headers))
  {
    ResolveFollowsRegistration(desired, headers);
    var r, ix := Resolve(desired, headers), MatchedIndices(desired, headers);
    forall i, j | 0 <= i < j < |r|
      ensures r[i].name != r[j].name
    {
      assert ix[i] < ix[j];
    }
  }

  /**
    One data line adds exactly one value to each resolved series and nothing
    to any other, when no two resolved series share a name.
  */
  lemma {:induction false} AppendValuesCounts(series: map<string, seq<real>>, resolved: seq<Series>,
                                              fields: seq<string>, name: string)
    requires InRange(resolved, fields) && NamesDistinct(resolved)
    ensures name in AppendValues(series, resolved, fields) <==> name in series || Named(resolved, name)
    ensures |Lookup(AppendValues(series, resolved, fields), name)| ==
      |Lookup(series, name)| + (if Named(resolved, name) then 1 else 0)
    decreases |resolved|
  {
    if resolved != [] {
      var m := |resolved| - 1;
      var init, s := resolved[..m], resolved[m];
      AppendValuesCounts(series, init, fields, name);
      NamedSnoc(resolved, name);
      if name == s.name {
        assert !Named(init, name) by {
          forall k | 0 <= k < m
            ensures init[k].name != name
          {
            assert init[k] == resolved[k];
          }
        }
      }
    }
  }

  /** A name is among the resolved series iff it is among all but the last, or is the last. */
  lemma NamedSnoc(resolved: seq<Series>, name: string)
    requires resolved != []
    ensures Named(resolved, name) <==>
      Named(resolved[..|resolved| - 1], name) || resolved[|resolved| - 1].name == name
  {
    var m := |resolved| - 1;
    var init := resolved[..m];
    if Named(resolved, name) {
      var k :| 0 <= k < |resolved| && resolved[k].name == name;
      if k < m {
        assert init[k].name == name;
      }
    }
    if Named(init, name) {
      var k :| 0 <= k < m && init[k].name == name;
      assert resolved[k].name == name;
    }
  }

  /** Every series of the process has at most as many values as timestamps. */
  predicate Bounded(p: ProcessValue)
  {
    forall name :: name in p.series ==> |p.series[name]| <= |p.timeSeries|
  }

  /** Every resolved series of the process has exactly as many values as timestamps. */
  predicate Exact(p: ProcessValue, resolved: seq<Series>)
  {
    forall k :: 0 <= k < |resolved| ==> |Lookup(p.series, resolved[k].name)| == |p.timeSeries|
  }

  /** What a timed data line does to a process. */
  function Appended(p: ProcessValue, resolved: seq<Series>, fields: seq<string>): ProcessValue
    requires |fields| > 0 && InRange(resolved, fields)
  {
    p.(timeSeries := p.timeSeries + [fields[0]], series := AppendValues(p.series, resolved, fields))
  }

  lemma AppendedKeepsBounded(p: ProcessValue, resolved: seq<Series>, fields: seq<string>)
    requires |fields| > 0 && InRange(resolved, fields) && NamesDistinct(resolved) && Bounded(p)
    ensures Bounded(Appended(p, resolved, fields))
  {
    var q := Appended(p, resolved, fields);
    forall name | name in q.series
      ensures |q.series[name]| <= |q.timeSeries|
    {
      AppendValuesCounts(p.series, resolved, fields, name);
    }
  }

  lemma AppendedKeepsExact(p: ProcessValue, resolved: seq<Series>, fields: seq<string>)
    requires |fields| > 0 && InRange(resolved, fields) && NamesDistinct(resolved) && Exact(p, resolved)
    ensures Exact(Appended(p, resolved, fields), resolved)
  {
    var q := Appended(p, resolved, fields);
    forall k | 0 <= k < |resolved|
      ensures |Lookup(q.series, resolved[k].name)| == |q.timeSeries|
    {
      AppendValuesCounts(p.series, resolved, fields, resolved[k].name);
      assert Named(resolved, resolved[k].name);
    }
  }

  /**
    The invariant behind "a series never has more values than timestamps":
    distinct resolved names, nothing resolved before the first header, and
    every process bounded.
  */
  predicate BoundedState(st: FileState)
  {
    && NamesDistinct(st.resolved)
    && (!st.verified ==> st.resolved == [])
    && forall id :: id in st.procs ==> Bounded(st.procs[id])
  }

  lemma ParseLineKeepsBounded(st: FileState, line: string, path: string,
                              desired: seq<DesiredSeries>, filter: ProcessFilter)
    requires BoundedState(st) && DesiredDistinct(desired)
    ensures var r := ParseLine(st, line, path, desired, filter);
      r.Success? ==> BoundedState(r.value)
  {
    var fields := Split(line, {','});
    if |fields| >= MinFields {
      if fields[0] == HeaderTag {
        if !st.verified {
          ResolveNamesDistinct(desired, fields);
          assert st.resolved + Resolve(desired, fields) == Resolve(desired, fields);
        }
      } else if Contains(filter, fields[2]) {
        DataLineKeepsBounded(st, fields, path);
      }
    }
  }

  /** A data line keeps every process bounded and leaves the flag and series alone. */
  lemma DataLineKeepsBounded(st: FileState, fields: seq<string>, path: string)
    requires |fields| >= MinFields && BoundedState(st)
    ensures var r := DataLine(st, fields, path);
      r.Success? ==> BoundedState(r.value)
  {
    var id := ComposeId(fields[2], path);
    var p := if id in st.procs then st.procs[id] else NewProcessValue(fields[2], path);
    if |fields[0]| > 0 && InRange(st.resolved, fields) {
      AppendedKeepsBounded(p, st.resolved, fields);
      assert DataLine(st, fields, path) == Success(st.(procs := st.procs[id := Appended(p, st.resolved, fields)],
                                                      order := DataLine(st, fields, path).value.order));
    }
  }

  /**
    Given distinct registered names and a parser whose filter starts empty, no
    series of any process of the file has more values than the process has
    timestamps.
  */
  lemma {:induction false} ParseLinesKeepsBounded(st: FileState, lines: seq<string>, path: string,
                                                  desired: seq<DesiredSeries>, filter: ProcessFilter)
    requires BoundedState(st) && DesiredDistinct(desired)
    ensures var r := ParseLines(st, lines, path, desired, filter);
      r.Success? ==> forall id :: id in r.value.procs ==> Bounded(r.value.procs[id])
    ensures var r := ParseLines(st, lines, path, desired, filter);
      r.Success? ==> BoundedState(r.value)
    decreases |lines|
  {
    if lines != [] {
      ParseLinesKeepsBounded(st, lines[..|lines| - 1], path, desired, filter);
      match ParseLines(st, lines[..|lines| - 1], path, desired, filter)
      case Failure(_) =>
      case Success(s) => ParseLineKeepsBounded(s, lines[|lines| - 1], path, desired, filter);
    }
  }

  /** After the header: every process has exactly one value per timestamp in each resolved series. */
  predicate ExactState(st: FileState)
  {
    && st.verified
    && NamesDistinct(st.resolved)
    && forall id :: id in st.procs ==> Exact(st.procs[id], st.resolved)
  }

  lemma ParseLineKeepsExact(st: FileState, line: string, path: string,
                            desired: seq<DesiredSeries>, filter: ProcessFilter)
    requires ExactState(st)
    ensures var r := ParseLine(st, line, path, desired, filter);
      r.Success? ==> ExactState(r.value)
  {
    var fields := Split(line, {','});
    if |fields| >= MinFields && fields[0] != HeaderTag && Contains(filter, fields[2]) {
      DataLineKeepsExact(st, fields, path);
    }
  }

  /** After the header, a data line keeps one value per timestamp in each resolved series. */
  lemma DataLineKeepsExact(st: FileState, fields: seq<string>, path: string)
    requires |fields| >= MinFields && ExactState(st)
    ensures var r := DataLine(st, fields, path);
      r.Success? ==> ExactState(r.value)
  {
    var id := ComposeId(fields[2], path);
    var p := if id in st.procs then st.procs[id] else NewProcessValue(fields[2], path);
    assert Exact(p, st.resolved);
    if |fields[0]| > 0 && InRange(st.resolved, fields) {
      AppendedKeepsExact(p, st.resolved, fields);
      assert DataLine(st, fields, path) == Success(st.(procs := st.procs[id := Appended(p, st.resolved, fields)],
                                                      order := DataLine(st, fields, path).value.order));
    }
  }

  lemma {:induction false} ParseLinesKeepsExact(st: FileState, lines: seq<string>, path: string,
                                                desired: seq<DesiredSeries>, filter: ProcessFilter)
    requires ExactState(st)
    ensures var r := ParseLines(st, lines, path, desired, filter);
      r.Success? ==> ExactState(r.value)
    decreases |lines|
  {
    if lines != [] {
      ParseLinesKeepsExact(st, lines[..|lines| - 1], path, desired, filter);
      match ParseLines(st, lines[..|lines| - 1], path, desired, filter)
      case Failure(_) =>
      case Success(s) => ParseLineKeepsExact(s, lines[|lines| - 1], path, desired, filter);
    }
  }

  /** Lines after a prefix continue from the state the prefix reached. */
  lemma {:induction false} ParseLinesAppend(st: FileState, a: seq<string>, b: seq<string>, mid: FileState, path: string,
                                            desired: seq<DesiredSeries>, filter: ProcessFilter)
    requires ParseLines(st, a, path, desired, filter) == Success(mid)
    ensures ParseLines(st, a + b, path, desired, filter) == ParseLines(mid, b, path, desired, filter)
    decreases |b|
  {
    if b == [] {
      assert a + b == a;
    } else {
      var init := b[..|b| - 1];
      ParseLinesAppend(st, a, init, mid, path, desired, filter);
      assert (a + b)[..|a + b| - 1] == a + init;
    }
  }

  /**
    When only ignored lines (a banner, blank lines, short or filtered-out rows)
    come before the first header of a fresh parser, every series of every
    process holds exactly one value per timestamp.
  */
  lemma HeaderFirstGivesExact(st: FileState, pre: seq<string>, header: string, rest: seq<string>, path: string,
                              desired: seq<DesiredSeries>, filter: ProcessFilter)
    requires !st.verified && st.resolved == [] && st.procs == map[]
    requires forall k :: 0 <= k < |pre| ==> Ignored(pre[k], filter)
    requires var fields := Split(header, {','}); |fields| >= MinFields && fields[0] == HeaderTag
    requires DesiredDistinct(desired)
    ensures var r := ParseLines(st, pre + [header] + rest, path, desired, filter);
      r.Success? ==> ExactState(r.value) && forall id :: id in r.value.procs ==> Bounded(r.value.procs[id])
  {
    IgnoredLinesChangeNothing(st, pre, path, desired, filter);
    assert pre + [header] + rest == pre + ([header] + rest);
    ParseLinesAppend(st, pre, [header] + rest, st, path, desired, filter);
    assert ParseLines(st, [header], path, desired, filter) == ParseLine(st, header, path, desired, filter) by {
      assert [header][..0] == [];
    }
    match ParseLine(st, header, path, desired, filter)
    case Failure(_) =>
      assert ([header] + rest)[..1] == [header];
      ParseLinesFailurePersists(st, [header] + rest, 1, path, desired, filter);
    case Success(mid) =>
      ResolveNamesDistinct(desired, Split(header, {','}));
      assert Split(header, {','})[0] == HeaderTag;
      assert mid.resolved == Resolve(desired, Split(header, {','}));
      ParseLinesAppend(st, [header], rest, mid, path, desired, filter);
      ParseLinesKeepsExact(mid, rest, path, desired, filter);
      ParseLinesKeepsBounded(mid, rest, path, desired, filter);
  }

  /** Listing processes that are exact for `resolved` in key order gives exact processes. */
  lemma {:induction false} ValuesInOrderExact(procs: map<string, ProcessValue>, order: seq<string>, resolved: seq<Series>)
    requires forall id :: id in procs ==> Exact(procs[id], resolved)
    ensures forall k :: 0 <= k < |ValuesInOrder(procs, order)| ==> Exact(ValuesInOrder(procs, order)[k], resolved)
    decreases |order|
  {
    if order != [] {
      var init := order[..|order| - 1];
      ValuesInOrderExact(procs, init, resolved);
      var before := ValuesInOrder(procs, init);
      var s := ValuesInOrder(procs, order);
      forall k | 0 <= k < |s|
        ensures Exact(s[k], resolved)
      {
        if k < |before| {
          assert s[k] == before[k];
        }
      }
    }
  }

  /** A file read after the header has been seen keeps the series and leaves every process exact. */
  lemma LaterFileKeepsExact(resolved: seq<Series>, path: string, fs: FileSystem,
                            desired: seq<DesiredSeries>, filter: ProcessFilter, out: FileOutcome)
    requires NamesDistinct(resolved)
    requires ParseFile(true, resolved, path, fs, desired, filter) == Success(out)
    ensures ExactState(out.state) && out.state.resolved == resolved
  {
    var start := FileState(true, resolved, map[], []);
    assert ExactState(start);
    if path in fs {
      ParseLinesKeepsExact(start, fs[path].lines, path, desired, filter);
      HeaderAppliedOnce(start, fs[path].lines, path, desired, filter);
    }
  }

  /**
    Across all files of `ParseLogs`: when the first file has only ignored
    lines before its header, every returned process has exactly one value per
    timestamp in each resolved series. Later files start with the flag up and
    an empty dictionary, so a data line in them never precedes the header.
  */
  lemma {:induction false} ParseFilesKeepsExact(paths: seq<string>, fs: FileSystem, pre: seq<string>, header: string,
                                                rest: seq<string>, desired: seq<DesiredSeries>,
                                                filter: ProcessFilter, all: AllOutcome)
    requires |paths| > 0 && paths[0] in fs && fs[paths[0]].lines == pre + [header] + rest
    requires forall k :: 0 <= k < |pre| ==> Ignored(pre[k], filter)
    requires var fields := Split(header, {','}); |fields| >= MinFields && fields[0] == HeaderTag
    requires DesiredDistinct(desired)
    requires ParseFiles(false, [], paths, fs, desired, filter) == Success(all)
    ensures all.verified && NamesDistinct(all.resolved)
    ensures forall k :: 0 <= k < |all.processes| ==> Exact(all.processes[k], all.resolved)
    decreases |paths|
  {
    var init, path := paths[..|paths| - 1], paths[|paths| - 1];
    var prev := ParseFiles(false, [], init, fs, desired, filter).value;
    var out := ParseFile(prev.verified, prev.resolved, path, fs, desired, filter).value;
    if |paths| == 1 {
      assert init == [] && path == paths[0];
      HeaderFirstGivesExact(FileState(false, [], map[], []), pre, header, rest, path, desired, filter);
    } else {
      assert init[0] == paths[0];
      ParseFilesKeepsExact(init, fs, pre, header, rest, desired, filter, prev);
      LaterFileKeepsExact(prev.resolved, path, fs, desired, filter, out);
    }
    var added := ValuesInOrder(out.state.procs, out.state.order);
    ValuesInOrderExact(out.state.procs, out.state.order, out.state.resolved);
    assert all.processes == prev.processes + added;
    forall k | 0 <= k < |all.processes|
      ensures Exact(all.processes[k], all.resolved)
    {
      if k >= |prev.processes| {
        assert all.processes[k] == added[k - |prev.processes|];
      }
    }
  }

  /** Listing bounded processes in key order gives bounded processes. */
  lemma {:induction false} ValuesInOrderBounded(procs: map<string, ProcessValue>, order: seq<string>)
    requires forall id :: id in procs ==> Bounded(procs[id])
    ensures forall k :: 0 <= k < |ValuesInOrder(procs, order)| ==> Bounded(ValuesInOrder(procs, order)[k])
    decreases |order|
  {
    if order != [] {
      var init := order[..|order| - 1];
      ValuesInOrderBounded(procs, init);
      var before := ValuesInOrder(procs, init);
      var s := ValuesInOrder(procs, order);
      forall k | 0 <= k < |s|
        ensures Bounded(s[k])
      {
        if k < |before| {
          assert s[k] == before[k];
        }
      }
    }
  }

  /** A file that parses from a bounded flag and series ends in a bounded state. */
  lemma ParseFileKeepsBounded(verified: bool, resolved: seq<Series>, path: string, fs: FileSystem,
                              desired: seq<DesiredSeries>, filter: ProcessFilter, out: FileOutcome)
    requires NamesDistinct(resolved) && (!verified ==> resolved == []) && DesiredDistinct(desired)
    requires ParseFile(verified, resolved, path, fs, desired, filter) == Success(out)
    ensures BoundedState(out.state)
  {
    var start := FileState(verified, resolved, map[], []);
    assert BoundedState(start);
    if path in fs {
      ParseLinesKeepsBounded(start, fs[path].lines, path, desired, filter);
    }
  }

  /**
    Across all files of `ParseLogs`: given distinct registered names and a
    parser that has not seen a header, no series of any returned process has
    more values than the process has timestamps.
  */
  lemma {:induction false} ParseFilesKeepsBounded(verified: bool, resolved: seq<Series>, paths: seq<string>,
                                                  fs: FileSystem, desired: seq<DesiredSeries>,
                                                  filter: ProcessFilter, all: AllOutcome)
    requires NamesDistinct(resolved) && (!verified ==> resolved == []) && DesiredDistinct(desired)
    requires ParseFiles(verified, resolved, paths, fs, desired, filter) == Success(all)
    ensures forall k :: 0 <= k < |all.processes| ==> Bounded(all.processes[k])
    ensures NamesDistinct(all.resolved) && (!all.verified ==> all.resolved == [])
    decreases |paths|
  {
    if paths != [] {
      var init, path := paths[..|paths| - 1], paths[|paths| - 1];
      match ParseFiles(verified, resolved, init, fs, desired, filter)
      case Success(prev) =>
        ParseFilesKeepsBounded(verified, resolved, init, fs, desired, filter, prev);
        match ParseFile(prev.verified, prev.resolved, path, fs, desired, filter)
        case Success(out) =>
          ParseFileKeepsBounded(prev.verified, prev.resolved, path, fs, desired, filter, out);
          var added := ValuesInOrder(out.state.procs, out.state.order);
          ValuesInOrderBounded(out.state.procs, out.state.order);
          assert all.processes == prev.processes + added;
          forall k | 0 <= k < |all.processes|
            ensures Bounded(all.processes[k])
          {
            if k >= |prev.processes| {
              assert all.processes[k] == added[k - |prev.processes|];
            }
          }
    }
  }

  /** A missing file adds no process and logs one "not found" message; the flag and series are untouched. */
  lemma MissingFileLogged(verified: bool, resolved: seq<Series>, paths: seq<string>, path: string, fs: FileSystem,
                          desired: seq<DesiredSeries>, filter: ProcessFilter, all: AllOutcome)
    requires path != "" && path !in fs
    requires ParseFiles(verified, resolved, paths, fs, desired, filter) == Success(all)
    ensures ParseFiles(verified, resolved, paths + [path], fs, desired, filter) ==
      Success(all.(messages := all.messages + [NotFoundMessage(path)]))
  {
    assert (paths + [path])[..|paths|] == paths;
    assert all.processes + ValuesInOrder(map[], []) == all.processes;
  }

  /** The sort key compares ids as text: pid 10 sorts before pid 9. */
  lemma PidTenBeforeNine(name: string, logFileName: string)
    ensures LexLe(KeyOf(name, logFileName, 10), KeyOf(name, logFileName, 9))
    ensures !LexLe(KeyOf(name, logFileName, 9), KeyOf(name, logFileName, 10))
  {
    var prefix := name + " " + logFileName + " ";
    assert IntToString(10) == "10" && IntToString(9) == "9";
    assert KeyOf(name, logFileName, 10) == prefix + "10";
    assert KeyOf(name, logFileName, 9) == prefix + "9";
    LexLeCommonPrefix(prefix, "10", "9");
    LexLeCommonPrefix(prefix, "9", "10");
  }
}
