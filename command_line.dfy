/**
  The command line of `Program.Main`: the help scan, the rules for one to
  four arguments, the choice of process filter, and the grouping of parsed
  processes by name for the directory output mode.
*/
module CommandLine {
  import opened Wrappers
  import opened ProcessFilters
  import opened Processes

  /** `OutputType`: a window, one image file, or one image per process name in a directory. */
  datatype OutputType = Interactive | File | Directory

  /** What a valid command line asks for. */
  datatype Invocation = Invocation(
    logFiles: string,
    patterns: Option<string>,
    mode: OutputType,
    outputPath: Option<string>)

  /**
    What `Main` makes of its arguments: the help text (return 1), a rejection
    with the line printed on the console (return 1), or a run.
  */
  datatype Classified = ShowHelp | Rejected(message: string) | Accepted(invocation: Invocation)

  /** The arguments that ask for help, compared exactly. */
  const HelpFlags: seq<string> := ["--help", "-h", "/?", "/HELP", "-help"]

  const OutputFlag: string := "-o"
  const DirectoryFlag: string := "-a"

  function InvalidArguments(arg: string): string
  {
    "Invalid arguments " + arg + "!"
  }

  const WrongCount: string := "Wrong number of input arguments!"

  /** The decision `Main` takes before it reads any log. */
  function Classify(args: seq<string>): Classified
  {
    if exists i :: 0 <= i < |args| && args[i] in HelpFlags then ShowHelp
    else if |args| == 1 then Accepted(Invocation(args[0], None, Interactive, None))
    else if |args| == 2 then Accepted(Invocation(args[0], Some(args[1]), Interactive, None))
    else if |args| == 3 then
      if args[1] == OutputFlag || args[1] == DirectoryFlag then
        Accepted(Invocation(args[0], None, if args[1] == OutputFlag then File else Directory, Some(args[2])))
      else Rejected(InvalidArguments(args[1]))
    else if |args| == 4 then
      if args[2] == OutputFlag then Accepted(Invocation(args[0], Some(args[1]), File, Some(args[3])))
      else Rejected(InvalidArguments(args[2]))
    else Rejected(WrongCount)
  }

  /** The help scan, then the `switch` on the argument count. */
  method ClassifyArguments(args: seq<string>) returns (c: Classified)
    ensures c == Classify(args)
  {
    for i := 0 to |args|
      invariant forall j :: 0 <= j < i ==> args[j] !in HelpFlags
    {
      if args[i] in HelpFlags {
        return ShowHelp;
      }
    }
    match |args|
    case 1 =>
      c := Accepted(Invocation(args[0], None, Interactive, None));
    case 2 =>
      c := Accepted(Invocation(args[0], Some(args[1]), Interactive, None));
    case 3 =>
      if args[1] == OutputFlag || args[1] == DirectoryFlag {
        var mode := if args[1] == OutputFlag then File else Directory;
        c := Accepted(Invocation(args[0], None, mode, Some(args[2])));
      } else {
        c := Rejected(InvalidArguments(args[1]));
      }
    case 4 =>
      if args[2] == OutputFlag {
        c := Accepted(Invocation(args[0], Some(args[1]), File, Some(args[3])));
      } else {
        c := Rejected(InvalidArguments(args[2]));
      }
    case _ =>
      c := Rejected(WrongCount);
  }

  /** The process filter `Main` builds: a pattern filter when patterns were given, `AllProcesses` otherwise. */
  function ChooseFilter(patterns: Option<string>): ProcessFilter
  {
    match patterns
    case Some(p) => NewProcessFilter(p)
    case None => AllProcesses
  }

  /** `AllProcesses` is used exactly for the one- and three-argument forms, the ones without patterns. */
  lemma AllProcessesWithoutPatterns(args: seq<string>)
    requires Classify(args).Accepted?
    ensures ChooseFilter(Classify(args).invocation.patterns) == AllProcesses <==> |args| == 1 || |args| == 3
  {
  }

  /** The invocations some command line produces: a directory run takes no patterns, only file runs carry an output path. */
  predicate WellFormed(inv: Invocation)
  {
    && inv.logFiles !in HelpFlags
    && (inv.patterns.Some? ==> inv.patterns.value !in HelpFlags)
    && (inv.outputPath.Some? ==> inv.outputPath.value !in HelpFlags)
    && match inv.mode
       case Interactive => inv.outputPath.None?
       case File => inv.outputPath.Some?
       case Directory => inv.outputPath.Some? && inv.patterns.None?
  }

  /** The canonical command line for an invocation. */
  function CommandLineOf(inv: Invocation): seq<string>
  {
    match inv.mode
    case Interactive =>
      [inv.logFiles] + (if inv.patterns.Some? then [inv.patterns.value] else [])
    case File =>
      [inv.logFiles] + (if inv.patterns.Some? then [inv.patterns.value] else [])
        + [OutputFlag] + (if inv.outputPath.Some? then [inv.outputPath.value] else [])
    case Directory =>
      [inv.logFiles, DirectoryFlag] + (if inv.outputPath.Some? then [inv.outputPath.value] else [])
  }

  /** Every well-formed invocation is what its command line is classified as. */
  lemma ClassifyRoundTrip(inv: Invocation)
    requires WellFormed(inv)
    ensures Classify(CommandLineOf(inv)) == Accepted(inv)
  {
    var args := CommandLineOf(inv);
    assert forall i :: 0 <= i < |args| ==> args[i] !in HelpFlags;
  }

  /**
    Conversely, every accepted command line is the canonical one of its
    invocation: nothing else is accepted, and an accepted invocation is well formed.
  */
  lemma ClassifyAcceptsOnlyCommandLines(args: seq<string>)
    requires Classify(args).Accepted?
    ensures WellFormed(Classify(args).invocation)
    ensures CommandLineOf(Classify(args).invocation) == args
  {
    assert forall i :: 0 <= i < |args| ==> args[i] !in HelpFlags;
    assert 1 <= |args| <= 4;
    assert args[0] in args;
    if |args| >= 2 { assert args[1] in args; }
    if |args| >= 3 { assert args[2] in args; }
    if |args| == 4 { assert args[3] in args; }
  }

  /** With two arguments the second is always the patterns, even "-o". */
  lemma TwoArgumentsAreInteractive(logFiles: string, second: string)
    requires logFiles !in HelpFlags && second !in HelpFlags
    ensures Classify([logFiles, second]) == Accepted(Invocation(logFiles, Some(second), Interactive, None))
  {
    assert forall i :: 0 <= i < 2 ==> [logFiles, second][i] !in HelpFlags;
  }

  /** "-a" cannot be combined with patterns: four arguments need "-o" in third place. */
  lemma DirectoryWithPatternsRejected(logFiles: string, patterns: string, outputPath: string)
    ensures !Classify([logFiles, patterns, DirectoryFlag, outputPath]).Accepted?
  {
  }

  /** A help flag anywhere wins over every other rule. */
  lemma HelpWins(args: seq<string>, i: nat)
    requires i < |args| && args[i] in HelpFlags
    ensures Classify(args) == ShowHelp
  {
  }

  /** The processes named `name`, in input order. */
  function InGroup(processes: seq<Process>, name: string): (g: seq<Process>)
    ensures forall k :: 0 <= k < |g| ==> g[k].processName == name && g[k] in processes
    decreases |processes|
  {
    if processes == [] then []
    else
      var p := processes[|processes| - 1];
      InGroup(processes[..|processes| - 1], name) + (if p.processName == name then [p] else [])
  }

  /** The process names in order of first appearance: the order the dictionary enumerates them. */
  function NamesInOrder(processes: seq<Process>): (names: seq<string>)
    ensures forall n :: n in names <==> exists k :: 0 <= k < |processes| && processes[k].processName == n
    ensures forall i, j :: 0 <= i < j < |names| ==> names[i] != names[j]
    decreases |processes|
  {
    if processes == [] then []
    else
      var init := processes[..|processes| - 1];
      var p := processes[|processes| - 1];
      var names := NamesInOrder(init);
      assert forall k :: 0 <= k < |init| ==> init[k] == processes[k];
      if p.processName in names then names else names + [p.processName]
  }

  /** The groups of `names`, one after the other. */
  function Flatten(processes: seq<Process>, names: seq<string>): seq<Process>
    decreases |names|
  {
    if names == [] then []
    else Flatten(processes, names[..|names| - 1]) + InGroup(processes, names[|names| - 1])
  }

  /**
    The loop over `processes` that fills `processGroup`: each name gets the
    list of its processes in input order, and the names come in the order the
    dictionary was filled; every process lands in exactly one group.
  */
  method GroupByName(processes: seq<Process>) returns (groups: map<string, seq<Process>>, names: seq<string>)
    ensures names == NamesInOrder(processes)
    ensures forall n :: n in groups <==> n in names
    ensures forall n :: n in groups ==> groups[n] == InGroup(processes, n) && groups[n] != []
    ensures multiset(Flatten(processes, names)) == multiset(processes)
  {
    groups, names := map[], [];
    for i := 0 to |processes|
      invariant Grouped(processes[..i], groups, names)
    {
      var p := processes[i];
      var groups', names' := groups, names;
      if p.processName !in groups {
        groups' := groups[p.processName := []];
        names' := names + [p.processName];
      }
      groups' := groups'[p.processName := groups'[p.processName] + [p]];
      assert processes[..i + 1] == processes[..i] + [p];
      GroupStep(processes[..i], p, groups, names, groups', names');
      groups, names := groups', names';
    }
    assert processes[..|processes|] == processes;
    GroupsPartition(processes, names);
  }

  /** The loop invariant: `processes` are grouped by name. */
  ghost predicate Grouped(processes: seq<Process>, groups: map<string, seq<Process>>, names: seq<string>)
  {
    && names == NamesInOrder(processes)
    && (forall n :: n in groups <==> n in names)
    && (forall n :: n in groups ==> groups[n] == InGroup(processes, n) && groups[n] != [])
  }

  /** Grouping one more process: its group gains it at the end, the other groups stay. */
  lemma InGroupSnoc(processes: seq<Process>, p: Process, n: string)
    ensures InGroup(processes + [p], n) == InGroup(processes, n) + (if p.processName == n then [p] else [])
  {
    assert (processes + [p])[..|processes|] == processes;
  }

  /** One more process lists its name at the end when it is new. */
  lemma NamesSnoc(processes: seq<Process>, p: Process)
    ensures NamesInOrder(processes + [p]) ==
      (if p.processName in NamesInOrder(processes) then NamesInOrder(processes) else NamesInOrder(processes) + [p.processName])
  {
    assert (processes + [p])[..|processes|] == processes;
  }

  /** Adding one more process to its group keeps the invariant. */
  lemma GroupStep(before: seq<Process>, p: Process, groups: map<string, seq<Process>>, names: seq<string>,
                  groups': map<string, seq<Process>>, names': seq<string>)
    requires Grouped(before, groups, names)
    requires names' == (if p.processName in groups then names else names + [p.processName])
    requires groups' == groups[p.processName := (if p.processName in groups then groups[p.processName] else []) + [p]]
    ensures Grouped(before + [p], groups', names')
  {
    NamesSnoc(before, p);
    forall n | n in groups'
      ensures groups'[n] == InGroup(before + [p], n) && groups'[n] != []
    {
      GroupEntry(before, p, groups, names, n);
    }
  }

  /** The group of one name after one more process, from the group before it. */
  lemma GroupEntry(before: seq<Process>, p: Process, groups: map<string, seq<Process>>, names: seq<string>, n: string)
    requires names == NamesInOrder(before)
    requires n in groups <==> n in names
    requires n in groups ==> groups[n] == InGroup(before, n)
    ensures InGroup(before + [p], n) ==
      (if n in groups then groups[n] else []) + (if p.processName == n then [p] else [])
  {
    InGroupSnoc(before, p, n);
    var g := InGroup(before, n);
    if n !in groups && g != [] {
      assert g[0] in before;
    }
  }

  lemma {:induction false} FlattenOfNothing(names: seq<string>)
    ensures Flatten([], names) == []
    decreases |names|
  {
    if names != [] {
      FlattenOfNothing(names[..|names| - 1]);
    }
  }

  /** One more process adds it once to the flattened groups when its name is listed. */
  lemma {:induction false} FlattenSnoc(processes: seq<Process>, p: Process, names: seq<string>)
    requires forall i, j :: 0 <= i < j < |names| ==> names[i] != names[j]
    ensures multiset(Flatten(processes + [p], names)) ==
      multiset(Flatten(processes, names)) + (if p.processName in names then multiset{p} else multiset{})
    decreases |names|
  {
    if names != [] {
      var init, n := names[..|names| - 1], names[|names| - 1];
      FlattenSnoc(processes, p, init);
      assert (processes + [p])[..|processes|] == processes;
      assert InGroup(processes + [p], n) == InGroup(processes, n) + (if p.processName == n then [p] else []);
      assert p.processName in names <==> p.processName in init || p.processName == n;
      assert p.processName == n ==> p.processName !in init;
    }
  }

  /** Listing every name once, the groups hold each process exactly as often as the input. */
  lemma {:induction false} FlattenPartition(processes: seq<Process>, names: seq<string>)
    requires forall i, j :: 0 <= i < j < |names| ==> names[i] != names[j]
    requires forall k :: 0 <= k < |processes| ==> processes[k].processName in names
    ensures multiset(Flatten(processes, names)) == multiset(processes)
    decreases |processes|
  {
    if processes == [] {
      FlattenOfNothing(names);
    } else {
      var init, p := processes[..|processes| - 1], processes[|processes| - 1];
      assert init + [p] == processes;
      forall k | 0 <= k < |init|
        ensures init[k].processName in names
      {
        assert init[k] == processes[k];
      }
      FlattenPartition(init, names);
      FlattenSnoc(init, p, names);
    }
  }

  /** Grouping by name is a partition of the processes. */
  lemma GroupsPartition(processes: seq<Process>, names: seq<string>)
    requires names == NamesInOrder(processes)
    ensures multiset(Flatten(processes, names)) == multiset(processes)
  {
    FlattenPartition(processes, names);
  }
}
