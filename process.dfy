/**
  A process recorded in a log file: its `Name(Id)` field split into a name
  and a numeric id, the log file it came from, the time axis and one list of
  values per series.
*/
module Processes {
  import opened Wrappers
  import opened Strings
  import opened Numbers

  /** The characters that delimit the id in `Name(Id)`. */
  const Parens: set<char> := {'(', ')'}

  /** `ProcessName`: the text before the first parenthesis, all of it when there is none. */
  function NameOf(nameAndId: string): (name: string)
    ensures name <= nameAndId
    ensures NoneIn(name, Parens)
    ensures |name| < |nameAndId| ==> nameAndId[|name|] in Parens
  {
    SplitFirstPiece(nameAndId, Parens);
    Split(nameAndId, Parens)[0]
  }

  /**
    `ProcessId`: the second parenthesis-delimited segment read as a 32-bit
    integer, 0 when there is no such segment or it does not parse.
  */
  function IdOf(nameAndId: string): (pid: int)
    ensures Int32Min <= pid <= Int32Max
    ensures NoneIn(nameAndId, Parens) ==> pid == 0
    ensures CountIn(nameAndId, Parens) >= 1 ==> pid == TryParseInt32(Split(nameAndId, Parens)[1])
  {
    var segments := Split(nameAndId, Parens);
    assert NoneIn(nameAndId, Parens) ==> |segments| == 1 by {
      if NoneIn(nameAndId, Parens) { CountInNone(nameAndId, Parens); }
    }
    if |segments| > 1 then TryParseInt32(segments[1]) else 0
  }

  /** The key a process is filed under: `Name(Id)`, a space, the log file name. */
  function ComposeId(nameAndId: string, logFileName: string): string
  {
    nameAndId + " " + logFileName
  }

  /** The same `Name(Id)` in two different files gets two different keys. */
  lemma ComposeIdSeparatesFiles(nameAndId: string, file1: string, file2: string)
    ensures ComposeId(nameAndId, file1) == ComposeId(nameAndId, file2) <==> file1 == file2
  {
    if ComposeId(nameAndId, file1) == ComposeId(nameAndId, file2) {
      assert file1 == ComposeId(nameAndId, file1)[|nameAndId| + 1..];
    }
  }

  /** A `Name(Id)` that is a proper prefix of a space-free one cannot give the same key. */
  lemma ComposeIdShorterDiffers(a: string, fa: string, b: string, fb: string)
    requires |a| < |b| && NoneIn(b, {' '})
    ensures ComposeId(a, fa) != ComposeId(b, fb)
  {
    assert ComposeId(a, fa)[|a|] == ' ' != b[|a|] == ComposeId(b, fb)[|a|];
  }

  /** With no space in either `Name(Id)`, the key determines both parts. */
  lemma ComposeIdInjective(a: string, fa: string, b: string, fb: string)
    requires NoneIn(a, {' '}) && NoneIn(b, {' '})
    ensures ComposeId(a, fa) == ComposeId(b, fb) <==> a == b && fa == fb
  {
    if |a| < |b| {
      ComposeIdShorterDiffers(a, fa, b, fb);
    } else if |b| < |a| {
      ComposeIdShorterDiffers(b, fb, a, fa);
    } else if ComposeId(a, fa) == ComposeId(b, fb) {
      var k := ComposeId(a, fa);
      assert a == k[..|a|] && b == k[..|b|];
      assert fa == k[|a| + 1..] == fb;
    }
  }

  /** Formatting a name and an id as `Name(Id)` and splitting it again gives both back. */
  lemma NameAndIdRoundTrip(name: string, pid: int)
    requires NoneIn(name, Parens)
    requires Int32Min <= pid <= Int32Max
    ensures NameOf(name + "(" + IntToString(pid) + ")") == name
    ensures IdOf(name + "(" + IntToString(pid) + ")") == pid
  {
    var digits := IntToString(pid);
    IntToStringChars(pid);
    assert NoneIn(digits, Parens);
    SplitAfterWord(digits, ')', "", Parens);
    assert digits + [')'] + "" == digits + ")";
    SplitAfterWord(name, '(', digits + ")", Parens);
    assert name + ['('] + (digits + ")") == name + "(" + digits + ")";
    assert Split(name + "(" + digits + ")", Parens) == [name, digits, ""];
    IntToStringRoundTrip(pid);
  }

  /** The values of a series, the empty list for one never set. */
  function Lookup(series: map<string, seq<real>>, name: string): seq<real>
  {
    if name in series then series[name] else []
  }

  /**
    `Set(name, value)` on the series map: `value` goes to the end of series
    `name`, created empty first when absent; every other series stays as it was.
  */
  function SetValue(series: map<string, seq<real>>, name: string, value: real): (r: map<string, seq<real>>)
    ensures name in r && r[name] == Lookup(series, name) + [value]
    ensures forall other :: other != name ==> (other in r <==> other in series)
    ensures forall other :: other != name && other in series ==> r[other] == series[other]
  {
    series[name := Lookup(series, name) + [value]]
  }

  /** `Set(name, v)` for every `v` of `values`, in order. */
  function SetValues(series: map<string, seq<real>>, name: string, values: seq<real>): map<string, seq<real>>
    decreases |values|
  {
    if values == [] then series
    else SetValue(SetValues(series, name, values[..|values| - 1]), name, values[|values| - 1])
  }

  /** After k calls of `Set(name, ·)` the series holds the k values in call order; no other series changes. */
  lemma {:induction false} SetValuesInOrder(series: map<string, seq<real>>, name: string, values: seq<real>)
    ensures Lookup(SetValues(series, name, values), name) == Lookup(series, name) + values
    ensures forall other :: other != name ==>
      (other in SetValues(series, name, values) <==> other in series)
    ensures forall other :: other != name && other in series ==>
      SetValues(series, name, values)[other] == series[other]
    decreases |values|
  {
    if values != [] {
      var init := values[..|values| - 1];
      SetValuesInOrder(series, name, init);
      var before := SetValues(series, name, init);
      assert SetValues(series, name, values) == SetValue(before, name, values[|values| - 1]);
      assert init + [values[|values| - 1]] == values;
    }
  }

  /** A process as a value: what the model of the log parser computes. */
  datatype ProcessValue = ProcessValue(
    processName: string,
    processId: int,
    logFileName: string,
    id: string,
    timeSeries: seq<string>,
    series: map<string, seq<real>>)

  /** The process the constructor builds: no timestamps and no series yet. */
  function NewProcessValue(nameAndId: string, logFileName: string): (p: ProcessValue)
    ensures p.processName == NameOf(nameAndId) && p.processId == IdOf(nameAndId)
    ensures p.logFileName == logFileName && p.id == ComposeId(nameAndId, logFileName)
    ensures p.timeSeries == [] && p.series == map[]
  {
    ProcessValue(NameOf(nameAndId), IdOf(nameAndId), logFileName, ComposeId(nameAndId, logFileName), [], map[])
  }

  class Process {
    const processName: string
    const processId: int
    const logFileName: string
    const id: string
    /** The timestamps; the parser appends to it directly. */
    var timeSeries: seq<string>
    var series: map<string, seq<real>>

    constructor (nameAndId: string, logFileName: string)
      ensures processName == NameOf(nameAndId) && processId == IdOf(nameAndId)
      ensures this.logFileName == logFileName && id == ComposeId(nameAndId, logFileName)
      ensures timeSeries == [] && series == map[]
    {
      processName := NameOf(nameAndId);
      processId := IdOf(nameAndId);
      this.logFileName := logFileName;
      id := ComposeId(nameAndId, logFileName);
      timeSeries := [];
      series := map[];
    }

    /** The state of this object as a value. */
    ghost function Value(): ProcessValue
      reads this
    {
      ProcessValue(processName, processId, logFileName, id, timeSeries, series)
    }

    /** `TimeSeries.Add(time)`. */
    method AddTime(time: string)
      modifies this`timeSeries
      ensures timeSeries == old(timeSeries) + [time]
    {
      timeSeries := timeSeries + [time];
    }

    method Set(seriesName: string, value: real)
      modifies this`series
      ensures series == SetValue(old(series), seriesName, value)
    {
      var theSeries := [];
      if seriesName in series {
        theSeries := series[seriesName];
      }
      series := series[seriesName := theSeries + [value]];
    }

    /** `Get(name)`: the values of a series; `None` where the dictionary lookup throws. */
    function Get(seriesName: string): (r: Option<seq<real>>)
      reads this
      ensures r.Some? <==> seriesName in series
      ensures r.Some? ==> r.value == series[seriesName]
    {
      if seriesName in series then Some(series[seriesName]) else None
    }
  }

  /** The constructor case of the unit tests, with the `Name(Id)` text written as name, '(' , id, ')'. */
  lemma SmokeTestNameAndId()
    ensures NameOf("RBCWSSession" + "(" + "1234" + ")") == "RBCWSSession"
    ensures IdOf("RBCWSSession" + "(" + "1234" + ")") == 1234
  {
    assert IntToString(1234) == "1234";
    NameAndIdRoundTrip("RBCWSSession", 1234);
  }

  /** The "()" case of the unit tests: an empty name and id 0. */
  lemma EmptyParensExample()
    ensures NameOf("()") == "" && IdOf("()") == 0
  {
    assert Split("()", Parens) == ["", "", ""];
  }

  /** The smoke test of `Process`: three values set on one series come back in order. */
  method ProcessSmokeTest() returns (name: string, pid: int, logFile: string, data: Option<seq<real>>)
    ensures name == "RBCWSSession" && pid == 1234 && logFile == "test_log.txt"
    ensures data == Some([1000.0, 2000.0, 3000.0])
  {
    SmokeTestNameAndId();
    var p := new Process("RBCWSSession" + "(" + "1234" + ")", "test_log.txt");
    p.Set("PrivateBytes", 1000.0);
    assert p.series["PrivateBytes"] == [1000.0];
    p.Set("PrivateBytes", 2000.0);
    assert p.series["PrivateBytes"] == [1000.0, 2000.0];
    p.Set("PrivateBytes", 3000.0);
    assert p.series["PrivateBytes"] == [1000.0, 2000.0, 3000.0];
    name, pid, logFile := p.processName, p.processId, p.logFileName;
    data := p.Get("PrivateBytes");
  }

  /** The abnormal case of the unit tests: "()" gives an empty name and id 0. */
  method ProcessAbnormalCase() returns (name: string, pid: int, logFile: string)
    ensures name == "" && pid == 0 && logFile == "test_log.txt"
  {
    EmptyParensExample();
    var p := new Process("()", "test_log.txt");
    name, pid, logFile := p.processName, p.processId, p.logFileName;
  }
}
