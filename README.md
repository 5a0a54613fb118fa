# PlotComPlus log ingestion, modelled in Dafny

PlotComPlus reads the CSV logs a COM+ monitoring script writes. Each log holds
one row per process and sampling instant. The tool collects, per process, the
timestamps and the columns the user configured (processor time, private bytes,
...). It then plots them.

This project models the part that turns log text into processes, in both of
the repository's implementations:

- the C# program:
  - the `Settings` that list the configured columns;
  - the `SeriesFilter` that binds those columns to header positions;
  - the two series kinds, which turn cells into numbers;
  - the process filters, which select processes by name;
  - `Process` and its series;
  - the `LogParser`, which reads every log, builds the processes and sorts them;
  - the argument handling and the grouping by process name in `Program.Main`;
- the earlier Python script `plot_complus.py`, as a separate small model of
  the same pieces. Lemmas compare it with the C# model wherever the two
  programs agree or differ.

Modules, one per file:

| file | module | what it holds |
|---|---|---|
| `wrappers.dfy` | `Wrappers` | `Option`, `Result` |
| `strings.dfy` | `Strings` | `String.Split` / `str.split`, `Join`, ASCII lower-casing, substring search, ordinal order |
| `numbers.dfy` | `Numbers` | the decimal parsers (`int.TryParse`, `double.TryParse`) and integer formatting |
| `series.dfy` | `SeriesTypes` | `DefaultSeries` / `MemorySeries` as one `Series` datatype |
| `series_filter.dfy` | `SeriesFilters` | column resolution and the `SeriesFilter` class |
| `process_filters.dfy` | `ProcessFilters` | `ProcessFilter`, `AllProcesses` |
| `process.dfy` | `Processes` | `Name(Id)` parsing, `ComposeId`, the series map, the `Process` class |
| `log_parser.dfy` | `LogParsers` | the parsing rules as functions, the `LogParser` class proved against them, the sort |
| `log_parser_props.dfy` | `LogParserProperties` | what the parsing rules guarantee |
| `log_parser_example.dfy` | `LogParserExample` | the log parser's smoke test, line by line |
| `settings.dfy` | `Settings` | `Settings.DesiredSeries` |
| `command_line.dfy` | `CommandLine` | argument classification and grouping by name in `Main` |
| `python_components.dfy` | `PythonComponents` | the Python series, `SeriesFilter`, process filters and `Process` |
| `python_log_parser.dfy` | `PythonLogParser` | the Python `LogParser` |

Files are inputs, not I/O:

- A C# log is a `FileEntry`. It holds the lines `ReadLine` returns. It may also
  say that reading throws an `IOException` after some of those lines.
- A Python log is the list of rows `csv.reader` yields.
- A path that is not in the file-system map does not exist.
- What the C# logger writes, and what the Python script prints, is a ghost `log`.
- Exceptions become `Result` failures.

## Model

| member | source | states |
|---|---|---|
| Strings.Split | PlotComPlus/PlotComPlus/LogParser.cs:73 | `String.Split` yields one piece more than there are separators, and no piece contains a separator |
| Strings.SplitJoin | PlotComPlus/PlotComPlus/LogParser.cs:73 | splitting the comma-join of comma-free fields gives the fields back |
| Strings.JoinSplitReplaces | PlotComPlus/PlotComPlus/ProcessFilters/ProcessFilter.cs:22-32 | splitting on one character and joining with another replaces the first by the second everywhere |
| Strings.OccursAt | PlotComPlus/PlotComPlus/ProcessFilters/ProcessFilter.cs:43-46 | a regex search for literal text succeeds exactly when the text occurs at some position |
| Strings.LexLeReflexive | PlotComPlus/PlotComPlus/LogParser.cs:42-49 | the ordinal order used by the sort comparator is reflexive |
| Strings.LexLeTotal | PlotComPlus/PlotComPlus/LogParser.cs:42-49 | any two sort keys are comparable |
| Strings.LexLeTransitive | PlotComPlus/PlotComPlus/LogParser.cs:42-49 | the comparator order is transitive |
| Strings.LexLeAntisymmetric | PlotComPlus/PlotComPlus/LogParser.cs:42-49 | keys ordered both ways are equal |
| Strings.LexLeCommonPrefix | PlotComPlus/PlotComPlus/LogParser.cs:45-47 | keys with a common prefix compare as their remainders |
| Numbers.TryParseInt32 | PlotComPlus/PlotComPlus/Process.cs:25 | `int.TryParse` gives the value of a sign-and-digits numeral within the 32-bit range and 0 otherwise |
| Numbers.IntToStringRoundTrip | PlotComPlus/PlotComPlus/LogParser.cs:45 | the decimal text of every integer parses back to that integer |
| Numbers.NatToStringValue | PlotComPlus/PlotComPlus/LogParser.cs:45 | the digits written for a natural number have that value |
| Numbers.IntToStringChars | PlotComPlus/PlotComPlus/LogParser.cs:45 | a formatted id holds only digits and a leading minus sign |
| SeriesTypes.Series.Transform | PlotComPlus/PlotComPlus/Series/DefaultSeries.cs:20-28 | a cell that does not parse, or a null one, gives 0 and never an error; a numeral gives its value in a default series |
| SeriesTypes.Series.Unit | PlotComPlus/PlotComPlus/Series/MemorySeries.cs:28-34 | the unit is empty for a default series and "(MB)" for a memory series |
| SeriesTypes.MemoryIsDefaultInMegabytes | PlotComPlus/PlotComPlus/Series/MemorySeries.cs:20-25 | a memory series reads a cell as a default series does and divides by 1,000,000 |
| SeriesTypes.TransformOfNumeral | PlotComPlus/PlotComPlus/Series/DefaultSeries.cs:20-28 | every integer numeral reads back as its number in a default series, and in millions in a memory series |
| SeriesTypes.TransformExamples | PlotComPlus/PlotComPlus.Tests/Series/MemorySeriesTest.cs:16-19 | the unit-test cases of both series: "10" is 10, "" and null are 0, "12345678" is 12.345678 MB |
| SeriesTypes.SeriesKindOf | PlotComPlus/PlotComPlus/SeriesFilter.cs:54-58 | the configured type name picks the default or the memory class ignoring case, and no class otherwise |
| SeriesTypes.SeriesKindOfIgnoresCase | PlotComPlus/PlotComPlus/SeriesFilter.cs:56-58 | two type names that differ only in letter case pick the same class |
| SeriesFilters.FirstIndex | PlotComPlus/PlotComPlus/SeriesFilter.cs:50-62 | the found column carries the name and no earlier one does; nothing is found only when no column carries it |
| SeriesFilters.FirstIndexIs | PlotComPlus/PlotComPlus/SeriesFilter.cs:50-62 | the first column carrying the name is the one found |
| SeriesFilters.ResolvedPositions | PlotComPlus/PlotComPlus/SeriesFilter.cs:48-63 | each resolved series sits at the first column named as it is |
| SeriesFilters.ResolveEmptyIff | PlotComPlus/PlotComPlus/SeriesFilter.cs:65-68 | nothing resolves exactly when no desired name is a header column |
| SeriesFilters.MatchedIndices | PlotComPlus/PlotComPlus/SeriesFilter.cs:48-63 | the positions of the desired entries found in the header, in registration order |
| SeriesFilters.ResolveFollowsRegistration | PlotComPlus/PlotComPlus/SeriesFilter.cs:48-63 | the k-th resolved series is the k-th registered entry whose name is a column, with that entry's name and kind |
| SeriesFilters.ResolveStep | PlotComPlus/PlotComPlus/SeriesFilter.cs:48-63 | resolving one more entry appends exactly what that entry resolves to |
| SeriesFilters.SeriesFilter.constructor | PlotComPlus/PlotComPlus/SeriesFilter.cs:17-21 | a new filter has nothing registered and nothing resolved |
| SeriesFilters.SeriesFilter.AddDesiredSeries | PlotComPlus/PlotComPlus/SeriesFilter.cs:31-34 | appends one entry to the desired list and leaves the resolved series alone |
| SeriesFilters.SeriesFilter.InitializeWithHeader | PlotComPlus/PlotComPlus/SeriesFilter.cs:43-69 | appends the resolution of the comma-split header; it fails (`SeriesNotFoundException`) exactly when the series list is still empty |
| SeriesFilters.SeriesFilter.BindColumns | PlotComPlus/PlotComPlus/SeriesFilter.cs:48-63 | the nested loop with `break` appends exactly the resolution of the header |
| SeriesFilters.ResolveTwo | PlotComPlus/PlotComPlus.Tests/SeriesFilterTest.cs:19-22 | with two registered entries both found, the resolution is those two in registration order |
| SeriesFilters.TestHeadersSplit | PlotComPlus/PlotComPlus.Tests/SeriesFilterTest.cs:29 | the unit test's header line splits into its eight columns |
| SeriesFilters.ProcessorTimeAtColumn3 | PlotComPlus/PlotComPlus.Tests/SeriesFilterTest.cs:33-35 | "%ProcessorTime" is first found at column 3 |
| SeriesFilters.PrivateBytesAtColumn6 | PlotComPlus/PlotComPlus.Tests/SeriesFilterTest.cs:37-39 | "PrivateBytes" is first found at column 6 |
| SeriesFilters.ResolveTestHeader | PlotComPlus/PlotComPlus.Tests/SeriesFilterTest.cs:27-40 | the test header resolves to a default series at 3 and a memory series at 6 |
| SeriesFilters.ResolveEmptyHeader | PlotComPlus/PlotComPlus.Tests/SeriesFilterTest.cs:43-48 | the header "Time,,,,,," resolves no registered series |
| SeriesFilters.SeriesFilterExamples | PlotComPlus/PlotComPlus.Tests/SeriesFilterTest.cs:15-49 | the unit tests end to end: the good header gives columns 3 and 6, "Time,,,,,," fails |
| SeriesFilters.InitializeTwice | PlotComPlus/PlotComPlus/SeriesFilter.cs:43-69 | a second initialization appends the same series again, which is why the parser initializes once |
| ProcessFilters.CompilePattern | PlotComPlus/PlotComPlus/ProcessFilters/ProcessFilter.cs:22-32 | the compiled pattern is the argument with every comma replaced by "\|"; the per-piece wrapping is lost, as written |
| ProcessFilters.ContainsIffSomePieceOccurs | PlotComPlus/PlotComPlus/ProcessFilters/ProcessFilter.cs:20-46 | for literal patterns, a name is accepted exactly when one comma-separated piece occurs in it, ignoring the case of ASCII letters |
| ProcessFilters.SplitPieceInside | PlotComPlus/PlotComPlus/ProcessFilters/ProcessFilter.cs:23 | the pieces of a text free of some characters are free of them too |
| ProcessFilters.EmptyNameRejected | PlotComPlus/PlotComPlus.Tests/ProcessFilterTest.cs:19 | with no empty piece, the empty name is rejected |
| ProcessFilters.EmptyPieceAcceptsAll | PlotComPlus/PlotComPlus/ProcessFilters/ProcessFilter.cs:32-33 | an empty piece, such as a trailing comma leaves, accepts every name |
| ProcessFilters.AllProcessesAcceptsAll | PlotComPlus/PlotComPlus/ProcessFilters/AllProcesses.cs:12-15 | `AllProcesses` accepts every name, the empty one included |
| ProcessFilters.LowerSession | PlotComPlus/PlotComPlus.Tests/ProcessFilterTest.cs:15-17 | the lower-case form of "Session" |
| ProcessFilters.LowerUserInfo | PlotComPlus/PlotComPlus.Tests/ProcessFilterTest.cs:26-29 | the lower-case form of "UserInfo" |
| ProcessFilters.LowerAppend | PlotComPlus/PlotComPlus/ProcessFilters/ProcessFilter.cs:33 | ignoring case works character by character, so it distributes over concatenation |
| ProcessFilters.OccursInMiddle | PlotComPlus/PlotComPlus/ProcessFilters/ProcessFilter.cs:45 | a search finds a text between any two others |
| ProcessFilters.OnePatternFilter | PlotComPlus/PlotComPlus/ProcessFilters/ProcessFilter.cs:20-46 | a filter from one comma-free pattern accepts exactly the names containing it, ignoring case |
| ProcessFilters.TwoPatternFilter | PlotComPlus/PlotComPlus/ProcessFilters/ProcessFilter.cs:20-46 | a filter from two patterns accepts exactly the names containing either |
| ProcessFilters.SessionFilter | PlotComPlus/PlotComPlus.Tests/ProcessFilterTest.cs:15 | the "session" filter accepts exactly the names whose lower case contains "session" |
| ProcessFilters.SinglePatternExamples | PlotComPlus/PlotComPlus.Tests/ProcessFilterTest.cs:13-20 | "RBCWSSession" and "some session server" accepted, "Quake" and "" rejected |
| ProcessFilters.SessionUserInfoFilter | PlotComPlus/PlotComPlus.Tests/ProcessFilterTest.cs:26 | the "Session,UserInfo" filter accepts exactly the names containing either word, ignoring case |
| ProcessFilters.MultiplePatternExamples | PlotComPlus/PlotComPlus.Tests/ProcessFilterTest.cs:24-32 | "RBCWSUserInfo", "Some Session Server", "Some Userinfo App" accepted; "Quake" and "" rejected |
| Processes.NameOf | PlotComPlus/PlotComPlus/Process.cs:21-22 | the name is the prefix before the first parenthesis, all of the text when there is none |
| Processes.IdOf | PlotComPlus/PlotComPlus/Process.cs:21-26 | the id is a 32-bit integer: `int.TryParse` of the text between the first and the second parenthesis, and 0 when the text has no parenthesis |
| Processes.ComposeIdSeparatesFiles | PlotComPlus/PlotComPlus/Process.cs:43-46 | the same `Name(Id)` in two different files gets two different keys |
| Processes.ComposeIdShorterDiffers | PlotComPlus/PlotComPlus/Process.cs:43-46 | a `Name(Id)` that is a proper prefix of a space-free one never gives the same key |
| Processes.ComposeIdInjective | PlotComPlus/PlotComPlus/Process.cs:43-46 | with no space in either `Name(Id)`, the key determines both the `Name(Id)` and the file |
| Processes.NameAndIdRoundTrip | PlotComPlus/PlotComPlus/Process.cs:19-26 | a name without parentheses and an id, written as `Name(Id)`, are read back by the constructor |
| Processes.SetValue | PlotComPlus/PlotComPlus/Process.cs:54-63 | `Set` puts the value at the end of its series, created empty first, and leaves every other series alone |
| Processes.SetValuesInOrder | PlotComPlus/PlotComPlus/Process.cs:54-63 | after k calls the series holds the k values in call order and no other series changed |
| Processes.NewProcessValue | PlotComPlus/PlotComPlus/Process.cs:19-33 | a new process has the parsed name and id, its file, its key, no timestamps and no series |
| Processes.Process.constructor | PlotComPlus/PlotComPlus/Process.cs:19-33 | the object's state is the value `NewProcessValue` describes |
| Processes.Process.AddTime | PlotComPlus/PlotComPlus/Process.cs:131-137 | appending to `TimeSeries` adds one timestamp at the end and changes nothing else |
| Processes.Process.Set | PlotComPlus/PlotComPlus/Process.cs:54-63 | the series map becomes `SetValue` of the old one |
| Processes.Process.Get | PlotComPlus/PlotComPlus/Process.cs:71-74 | the values of a set series; none where the dictionary lookup throws |
| Processes.SmokeTestNameAndId | PlotComPlus/PlotComPlus.Tests/ProcessTest.cs:16-19 | "RBCWSSession(1234)" gives name "RBCWSSession" and id 1234 |
| Processes.EmptyParensExample | PlotComPlus/PlotComPlus.Tests/ProcessTest.cs:38-41 | "()" gives the empty name and id 0 |
| Processes.ProcessSmokeTest | PlotComPlus/PlotComPlus.Tests/ProcessTest.cs:14-33 | the smoke test: name, id, file, and the three values back in order |
| Processes.ProcessAbnormalCase | PlotComPlus/PlotComPlus.Tests/ProcessTest.cs:36-43 | the abnormal case: empty name, id 0, the file |
| LogParsers.Values | PlotComPlus/PlotComPlus/LogParser.cs:123 | the processes' states, one per object, in order |
| LogParsers.InsertDown | PlotComPlus/PlotComPlus/LogParser.cs:42-49 | one insertion step extends the sorted prefix and permutes the array |
| LogParsers.SinkStep | PlotComPlus/PlotComPlus/LogParser.cs:42-49 | one swap moves the element down while the rest stays ordered, and permutes the elements |
| LogParsers.SortBy | PlotComPlus/PlotComPlus/LogParser.cs:42-49 | the array ends sorted by the key and is a permutation of what it was |
| LogParsers.SortProcesses | PlotComPlus/PlotComPlus/LogParser.cs:42-49 | the result is sorted by "name path id" and is a permutation of the input |
| LogParsers.ParseLinesFailurePersists | PlotComPlus/PlotComPlus/LogParser.cs:71-116 | once some lines have thrown, the whole file throws the same |
| LogParsers.ParseFilesFailurePersists | PlotComPlus/PlotComPlus/LogParser.cs:36-40 | once some paths have thrown, the whole call throws the same |
| LogParsers.ValuesInOrderIndex | PlotComPlus/PlotComPlus/LogParser.cs:123 | the k-th process of a file is the one filed under its k-th key |
| LogParsers.ValuesAppend | PlotComPlus/PlotComPlus/LogParser.cs:39 | `AddRange` appends the states of the new processes |
| LogParsers.ParseFilesSnoc | PlotComPlus/PlotComPlus/LogParser.cs:36-40 | one more path appends that file's processes and messages |
| LogParsers.ParseFilesFails | PlotComPlus/PlotComPlus/LogParser.cs:36-40 | a path that throws ends the whole call with that error |
| LogParsers.RemoveAt | PlotComPlus/PlotComPlus/LogParser.cs:42-49 | removing one element removes one occurrence from the multiset |
| LogParsers.ValuesRemoveAt | PlotComPlus/PlotComPlus/LogParser.cs:42-49 | the same for the processes' states |
| LogParsers.PickFirst | PlotComPlus/PlotComPlus/LogParser.cs:42-49 | a permutation holds the first element somewhere, and the rest is a permutation of the others |
| LogParsers.ValuesPutBack | PlotComPlus/PlotComPlus/LogParser.cs:42-49 | putting that element back keeps the states a permutation |
| LogParsers.ValuesPermutation | PlotComPlus/PlotComPlus/LogParser.cs:42-49 | permuting the objects permutes their states |
| LogParsers.DistinctOnce | PlotComPlus/PlotComPlus/LogParser.cs:42-49 | distinct objects occur once each |
| LogParsers.TwiceCounted | PlotComPlus/PlotComPlus/LogParser.cs:42-49 | an object at two positions occurs twice |
| LogParsers.DistinctPermutation | PlotComPlus/PlotComPlus/LogParser.cs:42-49 | sorting keeps the objects distinct |
| LogParsers.DistinctAppend | PlotComPlus/PlotComPlus/LogParser.cs:39 | appending the fresh objects of a file keeps them distinct |
| LogParsers.LogParser.constructor | PlotComPlus/PlotComPlus/LogParser.cs:18-23 | the parser keeps both filters, starts with the flag down and has logged nothing |
| LogParsers.LogParser.SetSeriesValues | PlotComPlus/PlotComPlus/LogParser.cs:108-111 | succeeds exactly when every resolved column is in the line, and then appends one transformed value per series |
| LogParsers.LogParser.FindOrCreate | PlotComPlus/PlotComPlus/LogParser.cs:95-102 | the process under the key is reused when present, otherwise a fresh one is filed and its key appended to the order |
| LogParsers.LogParser.AppendData | PlotComPlus/PlotComPlus/LogParser.cs:107-111 | appends the timestamp and one value per series, or fails on a missing column |
| LogParsers.LogParser.AppendTimed | PlotComPlus/PlotComPlus/LogParser.cs:104-112 | the data appended to one process, seen through the whole dictionary |
| LogParsers.LogParser.ReadDataLine | PlotComPlus/PlotComPlus/LogParser.cs:89-114 | a data line changes the dictionary as the data-line rule says, touching only the process under its key |
| LogParsers.LogParser.ReadHeader | PlotComPlus/PlotComPlus/LogParser.cs:80-88 | a header line initializes the series filter only while the flag is down, as the header rule says |
| LogParsers.LogParser.ReadLine | PlotComPlus/PlotComPlus/LogParser.cs:73-114 | one line does what the line rule says, or throws its error |
| LogParsers.LogParser.InOrder | PlotComPlus/PlotComPlus/LogParser.cs:123 | `result.Values` lists each process once, one per key; the model fixes insertion order, and `ParseLogs` depends only on the multiset |
| LogParsers.LogParser.InOrderValues | PlotComPlus/PlotComPlus/LogParser.cs:123 | those objects are distinct and their states are the rule's processes in key order |
| LogParsers.LogParser.ReadLines | PlotComPlus/PlotComPlus/LogParser.cs:71-116 | reading all lines gives what the rules give for the file, or its first error |
| LogParsers.LogParser.ParseLog | PlotComPlus/PlotComPlus/LogParser.cs:61-124 | one file: fresh distinct processes in key order as the rules build them, a "not found" log entry for an `IOException`, or the error that escapes |
| LogParsers.LogParser.ParseNext | PlotComPlus/PlotComPlus/LogParser.cs:36-40 | one more path: either the exception that ends all files, or fresh, distinct processes whose states are what the file rule adds to the outcome so far |
| LogParsers.LogParser.ParseEach | PlotComPlus/PlotComPlus/LogParser.cs:33-40 | all paths: the processes the rules give for every file, in file order, or the first error |
| LogParsers.LogParser.ParseLogs | PlotComPlus/PlotComPlus/LogParser.cs:31-51 | the result is sorted by "name path id", is a permutation of every file's processes, holds each object once, and the flag, series and log end as the rules say |
| LogParserProperties.IgnoredLinesChangeNothing | PlotComPlus/PlotComPlus/LogParser.cs:76-79 | lines with fewer than four fields, or from rejected processes, change nothing |
| LogParserProperties.HeaderLineOutcome | PlotComPlus/PlotComPlus/LogParser.cs:80-88 | a header never touches processes; with the flag up it changes nothing; otherwise it appends the resolution and raises the flag, failing exactly when nothing resolves |
| LogParserProperties.HeaderAppliedOnce | PlotComPlus/PlotComPlus/LogParser.cs:83-87 | once the flag is up, no line of a file changes the flag or the series |
| LogParserProperties.HeaderAppliedOnceAcrossFiles | PlotComPlus/PlotComPlus/LogParser.cs:83-87 | once the flag is up, no later file changes them either |
| LogParserProperties.DataLineOutcome | PlotComPlus/PlotComPlus/LogParser.cs:89-114 | a data line makes its process exist, creates it only when absent, leaves the others alone, appends the timestamp only when it is not empty, and fails exactly on a missing column |
| LogParserProperties.ResolveNamesDistinct | PlotComPlus/PlotComPlus/SeriesFilter.cs:48-63 | distinct registered names resolve to distinct series names |
| LogParserProperties.AppendValuesCounts | PlotComPlus/PlotComPlus/LogParser.cs:108-111 | with distinct names, a line adds exactly one value to each resolved series and none to others |
| LogParserProperties.AppendedKeepsBounded | PlotComPlus/PlotComPlus/LogParser.cs:104-112 | a timed line keeps every series no longer than the timestamps |
| LogParserProperties.AppendedKeepsExact | PlotComPlus/PlotComPlus/LogParser.cs:104-112 | a timed line keeps every resolved series as long as the timestamps |
| LogParserProperties.DataLineKeepsBounded | PlotComPlus/PlotComPlus/LogParser.cs:89-114 | a data line keeps every series of every process no longer than its timestamps |
| LogParserProperties.DataLineKeepsExact | PlotComPlus/PlotComPlus/LogParser.cs:89-114 | after the header, a data line keeps one value per timestamp in every resolved series |
| LogParserProperties.ParseLineKeepsBounded | PlotComPlus/PlotComPlus/LogParser.cs:73-114 | every line keeps the bounded-series invariant |
| LogParserProperties.ParseLinesKeepsBounded | PlotComPlus/PlotComPlus/LogParser.cs:71-116 | no series of any process has more values than the process has timestamps |
| LogParserProperties.ParseLineKeepsExact | PlotComPlus/PlotComPlus/LogParser.cs:73-114 | after the header, every line keeps one value per timestamp in each series |
| LogParserProperties.ParseLinesKeepsExact | PlotComPlus/PlotComPlus/LogParser.cs:71-116 | the same for all lines of a file |
| LogParserProperties.ParseLinesAppend | PlotComPlus/PlotComPlus/LogParser.cs:71-116 | lines after a prefix continue from the state the prefix reached |
| LogParserProperties.HeaderFirstGivesExact | PlotComPlus/PlotComPlus/LogParser.cs:71-116 | when only ignored lines (banner, blank, short or filtered-out lines) precede the first header, every series of every process holds one value per timestamp |
| LogParserProperties.ValuesInOrderExact | PlotComPlus/PlotComPlus/LogParser.cs:123 | the processes listed from a dictionary of such processes keep one value per timestamp |
| LogParserProperties.LaterFileKeepsExact | PlotComPlus/PlotComPlus/LogParser.cs:61-124 | a file read once the header has been seen keeps the series and one value per timestamp in every process |
| LogParserProperties.ValuesInOrderBounded | PlotComPlus/PlotComPlus/LogParser.cs:123 | the processes listed from a dictionary of bounded processes are bounded |
| LogParserProperties.ParseFileKeepsBounded | PlotComPlus/PlotComPlus/LogParser.cs:61-124 | no process a file yields has a series longer than its timestamps |
| LogParserProperties.ParseFilesKeepsBounded | PlotComPlus/PlotComPlus/LogParser.cs:31-40 | the same for every process of every file, before the sort |
| LogParserProperties.ParseFilesKeepsExact | PlotComPlus/PlotComPlus/LogParser.cs:31-40 | when the first file has only ignored lines before its header, every process of every file has exactly one value per timestamp in each resolved series |
| LogParserProperties.MissingFileLogged | PlotComPlus/PlotComPlus/LogParser.cs:119-122 | a missing file adds no process and logs one "not found" message |
| LogParserProperties.PidTenBeforeNine | PlotComPlus/PlotComPlus/LogParser.cs:45-47 | the key compares ids as text: id 10 sorts before id 9 |
| Settings.PrefixedIndices | PlotComPlus/PlotComPlus/Settings.cs:28-30 | exactly the positions of the keys starting with "Column.", in increasing order |
| Settings.ColumnEntriesFollowKeys | PlotComPlus/PlotComPlus/Settings.cs:28-36 | the k-th entry comes from the k-th prefixed key: its name is the rest of the key, its type the namespace plus the value |
| Settings.EntryOfColumn | PlotComPlus/PlotComPlus/Settings.cs:32-34 | a `Column.` key yields the rest of the key as the name and the namespaced value as the type |
| Settings.EntriesComeFromPrefixedKeys | PlotComPlus/PlotComPlus/Settings.cs:28-36 | every entry comes from some prefixed key |
| Settings.NoPrefixedKeyNoEntries | PlotComPlus/PlotComPlus/Settings.cs:28-36 | with no prefixed key the list is empty |
| Settings.DesiredSeries | PlotComPlus/PlotComPlus/Settings.cs:21-39 | the loop collects exactly the prefixed entries, in key order |
| Settings.SettingsExample | PlotComPlus/PlotComPlus.Tests/SettingsTest.cs:16-30 | the unit test: two entries with their namespaced types, which pick the default and the memory series class; the other key ignored |
| Settings.EntryKind | PlotComPlus/PlotComPlus/Settings.cs:32-34 | the namespaced type of an entry picks the default class exactly when the value is "DefaultSeries", the memory class exactly when it is "MemorySeries", ignoring case, and no class otherwise |
| CommandLine.ClassifyArguments | PlotComPlus/PlotComPlus/Program.cs:50-118 | the help scan and the switch decide what the decision function says |
| CommandLine.AllProcessesWithoutPatterns | PlotComPlus/PlotComPlus/Program.cs:121-129 | `AllProcesses` is chosen exactly for the one- and three-argument forms |
| CommandLine.ClassifyRoundTrip | PlotComPlus/PlotComPlus/Program.cs:62-118 | the command line of every well-formed invocation is classified as that invocation |
| CommandLine.ClassifyAcceptsOnlyCommandLines | PlotComPlus/PlotComPlus/Program.cs:62-118 | every accepted argument list is the command line of a well-formed invocation |
| CommandLine.TwoArgumentsAreInteractive | PlotComPlus/PlotComPlus/Program.cs:71-77 | with two arguments the second is taken as patterns, even "-o" |
| CommandLine.DirectoryWithPatternsRejected | PlotComPlus/PlotComPlus/Program.cs:97-113 | "-a" cannot be combined with patterns |
| CommandLine.HelpWins | PlotComPlus/PlotComPlus/Program.cs:50-60 | a help flag anywhere shows help |
| CommandLine.InGroup | PlotComPlus/PlotComPlus/Program.cs:160-167 | a group holds only processes of the input that carry its name |
| CommandLine.NamesInOrder | PlotComPlus/PlotComPlus/Program.cs:160-167 | each name once, in order of first appearance |
| CommandLine.GroupByName | PlotComPlus/PlotComPlus/Program.cs:157-167 | the loop builds one non-empty group per name in input order, and the groups partition the processes |
| CommandLine.GroupStep | PlotComPlus/PlotComPlus/Program.cs:162-166 | adding one process keeps the grouping invariant |
| CommandLine.GroupEntry | PlotComPlus/PlotComPlus/Program.cs:162-166 | after one more process, each name's list is its old list (empty for a new name) followed by the process when it carries that name |
| CommandLine.FlattenOfNothing | PlotComPlus/PlotComPlus/Program.cs:157-167 | with no processes every group is empty |
| CommandLine.FlattenSnoc | PlotComPlus/PlotComPlus/Program.cs:157-167 | one more process is added once to the groups when its name is listed |
| CommandLine.FlattenPartition | PlotComPlus/PlotComPlus/Program.cs:157-167 | listing every name once, the groups hold each process as often as the input |
| CommandLine.GroupsPartition | PlotComPlus/PlotComPlus/Program.cs:157-167 | grouping by name is a partition of the processes |
| PythonComponents.IntOrZero | plot_complus.py:78-93 | `int(value)` of a sign-and-digits numeral is its value, and 0 where the model's numeral grammar rejects the text |
| PythonComponents.PyTransformAgrees | plot_complus.py:78-113 | with both number parsers read as sign-and-digits numerals, the Python transforms give what the C# ones give on every cell, a missing one included |
| PythonComponents.PyTransformExamples | plot_complus.py:78-113 | the doctests of both transforms |
| PythonComponents.PySeriesFilter.constructor | plot_complus.py:256-263 | the preference is kept and nothing is resolved |
| PythonComponents.PySeriesFilter.Initialize | plot_complus.py:265-283 | appends the resolution of the header, the same as the C# one; raises `UsageError` exactly when the list is still empty |
| PythonComponents.PySeriesFilterExamples | plot_complus.py:227-254 | the doctests: columns 3 and 6; a header with only "PrivateBytes" accepted; none raises |
| PythonComponents.PyFilterAgrees | plot_complus.py:314-330 | for literal patterns, with case folded on ASCII letters, the Python filter accepts the same names as the C# one; both all-filters accept everything |
| PythonComponents.PyFilterExamples | plot_complus.py:302-311 | the doctest with "UserInfo,Session" |
| PythonComponents.PyTestFilter | plot_complus.py:302-311 | the doctest filter accepts exactly the names holding "userinfo" or "session" in any case |
| PythonComponents.PySplitNameAndId | plot_complus.py:381-391 | the constructor's unpacking succeeds exactly when the text has at least two parentheses, and raises `ValueError` otherwise |
| PythonComponents.PyNameAndIdAgrees | plot_complus.py:381-391 | where it succeeds, the name is the C# name and the C# id is the Python id text parsed |
| PythonComponents.NoParenthesesDiffers | plot_complus.py:381-391 | a field with no parenthesis: C# takes it as name with id 0, Python raises |
| PythonComponents.PySplitExamples | plot_complus.py:357-376 | the doctests: "RBCWSSession(1234)" and "()" |
| PythonComponents.PyProcess.constructor | plot_complus.py:381-391 | name, id text, file, key; no timestamps, no series |
| PythonComponents.PyProcess.Set | plot_complus.py:399-409 | appends to the series, creating it when absent, the others unchanged |
| PythonComponents.PyProcess.Get | plot_complus.py:393-397 | the values of a set series; none where `getattr` raises |
| PythonComponents.PyProcessExample | plot_complus.py:357-372 | the doctest: the three values in order, a second series leaving the first alone |
| PythonLogParser.Basename | plot_complus.py:527 | the base name is the longest suffix of the path without a path separator: a suffix, separator-free, and preceded by a separator when shorter than the path |
| PythonLogParser.PyAppendValuesAgree | plot_complus.py:550-551 | with both number parsers read as sign-and-digits numerals, a data row appends the same values in both programs |
| PythonLogParser.NewKeys | plot_complus.py:515 | `update` adds exactly the keys not yet present, each once |
| PythonLogParser.InKeyOrder | plot_complus.py:518 | `values()` lists the process under each key, one per key; only this multiset is relied on, since a Python 2 dict enumerates in hash order |
| PythonLogParser.Insert | plot_complus.py:518-519 | inserting adds exactly that process |
| PythonLogParser.SortedByKey | plot_complus.py:518-519 | `sorted` returns a permutation of its input |
| PythonLogParser.SortedSnoc | plot_complus.py:518-519 | a key no smaller than all others can go at the end |
| PythonLogParser.InsertSorted | plot_complus.py:518-519 | inserting keeps the order |
| PythonLogParser.SortedByKeySorted | plot_complus.py:518-519 | the result is ordered by "name filename pid" |
| PythonLogParser.SortedInputUnchanged | plot_complus.py:518-519 | the sort is stable: input already in order, ties included, is returned unchanged |
| PythonLogParser.PyPidTenBeforeNine | plot_complus.py:519 | the key compares ids as text: "10" sorts before "9" |
| PythonLogParser.PyLogParser.constructor | plot_complus.py:482-496 | both filters kept, the flag down, nothing printed |
| PythonLogParser.PyLogParser.SetSeriesValues | plot_complus.py:550-551 | succeeds exactly when every resolved column is in the row, and then appends one value per series |
| PythonLogParser.PyLogParser.ReadDataRow | plot_complus.py:541-551 | a data row changes the dict as the data-row rule says |
| PythonLogParser.PyLogParser.ReadRow | plot_complus.py:530-551 | one row does what the row rule says, or raises its error |
| PythonLogParser.PyLogParser.RowsFailurePersists | plot_complus.py:530-551 | once some rows have raised, the file raises the same |
| PythonLogParser.PyLogParser.GetProcessesInLog | plot_complus.py:522-553 | the dict of a file is what the rules give for its rows, or the first exception |
| PythonLogParser.PyLogParser.FilesFailurePersists | plot_complus.py:509-515 | once some paths have raised, the call raises the same |
| PythonLogParser.PyLogParser.ParseEach | plot_complus.py:505-515 | every path in turn: a missing one printed and skipped, an existing one parsed and merged |
| PythonLogParser.PyLogParser.ParseLogs | plot_complus.py:498-520 | the result is sorted by "name filename pid" and is a permutation of the merged processes; the flag, series and printed lines end as the rules say |
| PythonLogParser.PyParseRowWellKeyed | plot_complus.py:530-551 | one row keeps the dict well keyed: keys listed once, each process under its own id |
| PythonLogParser.PyDataRowWellKeyed | plot_complus.py:541-551 | a data row files its process under its own id and lists a new id once |
| PythonLogParser.PyParseRowsWellKeyed | plot_complus.py:522-553 | the same for a whole file |
| PythonLogParser.UpdateWellKeyed | plot_complus.py:515 | `update` of one well-keyed dict by another is well keyed |
| PythonLogParser.PyParseFilesWellKeyed | plot_complus.py:505-515 | every successful call ends with a well-keyed dict |
| PythonLogParser.OneProcessPerKey | plot_complus.py:543-544 | the listed processes have distinct ids: one per `Name(Id)` and base name, however many files share them |
| PythonLogParser.LaterFileWins | plot_complus.py:515 | a later file's processes replace earlier ones under the same key, other keys keep theirs |
| PythonLogParser.SameBasenameSameKey | plot_complus.py:527-543 | paths with one base name give one key for the same `Name(Id)` |
| PythonLogParser.PyMissingPathPrinted | plot_complus.py:510-512 | a missing path prints one message and changes nothing else |
| PythonLogParser.PyHeaderAppliedOnce | plot_complus.py:534-539 | once the flag is up, no row changes it or the series |
| PythonLogParser.PyDataRowOutcome | plot_complus.py:540-551 | `ValueError` exactly for fewer than two parentheses; `IndexError` exactly for a missing column; otherwise the process exists, is created only when absent, and gets the timestamp only when it is not empty |
| PythonLogParser.PyDataRowKeepsBounded | plot_complus.py:541-551 | a data row keeps every series of every process no longer than its timestamps |
| PythonLogParser.PyParseRowKeepsBounded | plot_complus.py:530-551 | every row keeps that invariant |
| PythonLogParser.PyParseRowsKeepsBounded | plot_complus.py:522-553 | the same for all rows of a file |
| PythonLogParser.PyParseFilesKeepsBounded | plot_complus.py:505-515 | and for every process of every file |
| PythonLogParser.ThreeFieldRowsDiffer | plot_complus.py:531-533 | a three-field data row is skipped by the C# parser and recorded by the Python one |
| LogParserExample.TestFilterAccepts | PlotComPlus/PlotComPlus.Tests/LogParserTest.cs:28 | the test's filter "session,userinfo" keeps "RBCWSSession(6520)" and "RBCWSUserInfo(10496)" |
| LogParserExample.TestFilterRejects | PlotComPlus/PlotComPlus.Tests/LogParserTest.cs:28 | it drops "Idle(0)", "System(4)" and the empty name |
| LogParserExample.ResolveHeaderRow | PlotComPlus/PlotComPlus.Tests/LogParserTest.cs:22-25 | the test's header resolves "%ProcessorTime" at column 3 and "PrivateBytes", a memory series, at column 6 |
| LogParserExample.ShortLineSkipped | PlotComPlus/PlotComPlus/LogParser.cs:76-79 | a line of fewer than four fields changes nothing |
| LogParserExample.HeaderLineParsed | PlotComPlus/PlotComPlus/LogParser.cs:80-88 | the first header raises the flag and resolves the test's two series |
| LogParserExample.FilteredLineSkipped | PlotComPlus/PlotComPlus/LogParser.cs:89-93 | a data line of a process the filter drops changes nothing |
| LogParserExample.PreludeLinesParsed | PlotComPlus/PlotComPlus.Tests/LogParserTest.cs:35-40 | the banner, the blank line, the header, and the Idle and System rows leave the flag up, two series and no process |
| LogParserExample.DataLinesParsed | PlotComPlus/PlotComPlus.Tests/LogParserTest.cs:41-45 | the remaining rows file the session process with three rows and the user-info process with one, in the order first met |
| LogParserExample.SingleFileParsed | PlotComPlus/PlotComPlus/LogParser.cs:36-40 | one readable file yields its processes in the order first met, and no message |
| LogParserExample.SessionSeries | PlotComPlus/PlotComPlus/Series/MemorySeries.cs:20-25 | the session rows read as CPU values 23, 24, 25 in the default series and 30.208, 25.071616, 25.214976 in the memory series |
| LogParserExample.SmokeTest | PlotComPlus/PlotComPlus.Tests/LogParserTest.cs:17-86 | the test end to end: two processes; "RBCWSSession", id 6520, three timestamps, 23, 24, 25 and 30.208, 25.071616, 25.214976 MB; "RBCWSUserInfo", id 10496, one timestamp, 11 and 13.4144 MB; no message |
| LogParserExample.SessionSortsFirst | PlotComPlus/PlotComPlus/LogParser.cs:42-49 | the session's sort key is below the user-info's, whatever the file |
| LogParserExample.TwoInKeyOrder | PlotComPlus/PlotComPlus/LogParser.cs:42-49 | a sorted permutation of two processes with strictly ordered keys is in that order |
| LogParserExample.TestFileExact | PlotComPlus/PlotComPlus.Tests/LogParserTest.cs:34-46 | the test file, three ignored lines before its header, meets the premise of `ParseFilesKeepsExact`: every process it yields has one value per timestamp |
| LogParserExample.TestFileResolved | PlotComPlus/PlotComPlus.Tests/LogParserTest.cs:22-26 | the test file resolves exactly the two registered series |
| LogParserExample.SmokeTestExact | PlotComPlus/PlotComPlus.Tests/LogParserTest.cs:54-82 | in the smoke test both processes have exactly one "%ProcessorTime" and one "PrivateBytes" value per timestamp |
| LogParserExample.SmokeTestSorted | PlotComPlus/PlotComPlus.Tests/LogParserTest.cs:52-82 | after the sort in `ParseLogs`, the session process is `processes[0]` and the user-info process `processes[1]` |

## Left out

- Timestamp conversion (`Convertor`, `make_time_series`), plotting, colours, the GUI, and the file-system work of `Main` (directories, output paths): these are outside log ingestion.
- `ConfigurationManager.AppSettings` is a parameter: a sequence of key/value settings, in key order.
- Reading files: a log is its list of lines, or, in Python, its rows. `Path.GetFullPath` and `os.path.abspath` are left out: paths are compared as given. The Python message shows the path as given, not its absolute form. A path naming a directory is not modelled.
- CSV quoting: the C# program splits on every comma, which the model follows. Python's `csv.reader` quoting is not modelled: its rows are inputs.
- Regular expressions: the pattern pieces are matched as literal text. Patterns holding regex metacharacters are outside the model. The comparison lemmas require pieces without "|".
- Series.Transform: `double.TryParse` is modelled on sign-and-digits numerals; decimals, exponents, thousands separators and culture settings are not. `int(value)` in Python is modelled on the same grammar, and its surrounding-whitespace tolerance is left out.
- Floating point is modelled as exact `real` arithmetic.
- Sort order: `string.CompareTo` is culture-sensitive in .NET, and the model uses ordinal order. `List.Sort` is unstable, so the order of equal keys is left unspecified.
- `Dictionary.Values` has no order .NET promises. The model fixes one, insertion order of the keys, for the list the private `ParseLog` returns (PlotComPlus/PlotComPlus/LogParser.cs:61-124). That list only feeds `AddRange` and the unstable `result.Sort` in `ParseLogs` (PlotComPlus/PlotComPlus/LogParser.cs:36-48), and the contract of `ParseLogs` (sorted, a permutation, each object once) holds whatever the order.
- SeriesKindOf: a type name no class matches makes `CreateInstance` return null, and the parser then fails on it; the model resolves only the two known classes and does not follow that null.
- The Python processes are values, not objects: `_get_processes_in_log` never shares a process between dicts, so aliasing does not arise.
- PythonComponents.PyProcess.Set: series hold reals, the only values the parser stores (plot_complus.py:551); `set` stores any value unchanged, and the string values of its doctest are not modelled.
- PythonComponents.PyProcess.Set: a series named like one of the object's own attributes (`id`, `time_series`, ...) collides with it in `setattr`; the model keeps series in a separate map.
- The logger and `print` are a ghost list of messages.
- PythonComponents.IntOrZero: Python's `int` also accepts surrounding white space; the model reads sign-and-digits numerals only, so `int(" 12")` is 12 in the program and 0 in the model.
- Numbers.TryParseInt32: .NET `int.TryParse` also accepts leading and trailing white space; the model does not, so "A( 12 )" gives id 12 in the program and 0 in the model.
- Strings.Lower: `RegexOptions.IgnoreCase` folds case by the current culture, and Python 2's `re.IGNORECASE` folds ASCII letters only; the model folds A to Z only, which is exact for Python and weaker than .NET for names with non-ASCII letters.
- ProcessFilters.ContainsIffSomePieceOccurs: ignoring case is stated for ASCII letters only, as `Lower` says.
- PythonComponents.PyFilterAgrees: the two filters are compared with ASCII case folding; a name with a non-ASCII letter whose case differs may be accepted by the C# filter and rejected by the Python one.
- LogParsers.ParseFile: `Path.GetFullPath` throws `ArgumentException` for a path that is empty, only white space, or holds an invalid character; the model raises `InvalidPath` for the empty path only, and treats the others as paths that may be missing.
- LogParsers.LogParser.ParseLog: the same; a white-space path is looked up in the file system rather than rejected.
- PythonLogParser.PyParseFile: a Python read error in the middle of a file (`IOError` from `csv.reader`) is not modelled; an existing path always yields all its rows.
- PythonComponents.PyTransformAgrees: the C# `double.TryParse` reads decimals ("12.5" is 12.5) where Python's `int` raises (0); both are modelled on sign-and-digits numerals, so the agreement is stated only there.
- PythonLogParser.PyAppendValuesAgree: for the same reason, a row with a decimal cell appends different values in the two programs.
- PythonLogParser.InKeyOrder: Python 2 enumerates a dict in hash order; the model lists the processes in insertion order, and nothing states or uses more than the multiset of that list.
- PythonLogParser.PyLogParser.ParseLogs: processes with equal keys keep the dict's hash order through the stable sort, so their relative order is unspecified; the model promises a sorted permutation only.
- The doctest of `LogParser.parse_logs` (plot_complus.py:424-480) is not modelled; the C# smoke test, which reads the same kind of file, is.
- After an exception escapes `ParseLogs`, the model says nothing about the parser's state, since `Main` does not catch it.

Behaviour of the code a reader might not expect, which the model follows:
- a C# data line with an empty timestamp still creates its process, with no timestamps;
- a C# header needs four fields like any other line;
- column positions are zero-based, as `InitializeWithHeader` counts them.
