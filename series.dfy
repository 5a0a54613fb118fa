/**
  The series (columns, metrics) a log file can be asked for. The source
  has one class per kind of series, `DefaultSeries` and its subclass
  `MemorySeries`, created by reflection from a configured type name; here
  the kinds are a closed datatype and a series is a value.
*/
module SeriesTypes {
  import opened Wrappers
  import opened Numbers
  import opened Strings

  datatype SeriesKind = Default | Memory

  /** A series asked for in the configuration, before any header is seen. */
  datatype DesiredSeries = DesiredSeries(name: string, kind: SeriesKind)

  /** Bytes per megabyte, the divisor of the memory series. */
  const BytesPerMegabyte: real := 1000000.0

  /**
    The number `double.TryParse` leaves in its out parameter: the parsed
    value, or 0 when the cell (`None` stands for a null reference) does not parse.
  */
  function ParsedOrZero(value: Option<string>): real
  {
    match value
    case None => 0.0
    case Some(s) =>
      match ParseInteger(s)
      case Some(n) => n as real
      case None => 0.0
  }

  /** A series resolved against a header: its name and zero-based column. */
  datatype Series = Series(kind: SeriesKind, name: string, position: nat) {

    /** Turns a raw cell into a number; a cell that does not parse gives 0 and never an error. */
    function Transform(value: Option<string>): (r: real)
      ensures (value.None? || ParseInteger(value.value).None?) ==> r == 0.0
      ensures kind.Default? && value.Some? && ParseInteger(value.value).Some? ==>
                r == ParseInteger(value.value).value as real
    {
      match kind
      case Default => ParsedOrZero(value)
      case Memory => ParsedOrZero(value) / BytesPerMegabyte
    }

    /** The unit shown in the axis title. */
    function Unit(): (u: string)
      ensures kind.Default? ==> u == ""
      ensures kind.Memory? ==> u == "(MB)"
    {
      match kind
      case Default => ""
      case Memory => "(MB)"
    }
  }

  /** The memory series reads a cell as the default series does, then divides by 1,000,000. */
  lemma MemoryIsDefaultInMegabytes(name: string, position: nat, value: Option<string>)
    ensures Series(Memory, name, position).Transform(value)
         == Series(Default, name, position).Transform(value) / 1000000.0
  {
  }

  /** Every decimal numeral reads back as its number, in both kinds. */
  lemma TransformOfNumeral(name: string, position: nat, n: int)
    ensures Series(Default, name, position).Transform(Some(IntToString(n))) == n as real
    ensures Series(Memory, name, position).Transform(Some(IntToString(n))) == n as real / 1000000.0
  {
    IntToStringRoundTrip(n);
  }

  /** The cases the unit tests of both series check. */
  lemma TransformExamples()
    ensures Series(Default, "%ProcessorTime", 3).Transform(Some("10")) == 10.0
    ensures Series(Default, "%ProcessorTime", 3).Transform(Some("")) == 0.0
    ensures Series(Default, "%ProcessorTime", 3).Transform(None) == 0.0
    ensures Series(Memory, "PrivateBytes", 6).Transform(Some("12345678")) == 12.345678
    ensures Series(Memory, "PrivateBytes", 6).Transform(Some("0")) == 0.0
    ensures Series(Memory, "PrivateBytes", 6).Transform(None) == 0.0
  {
    assert IntToString(10) == "10";
    TransformOfNumeral("%ProcessorTime", 3, 10);
    assert IntToString(12345678) == "12345678";
    TransformOfNumeral("PrivateBytes", 6, 12345678);
    assert IntToString(0) == "0";
    TransformOfNumeral("PrivateBytes", 6, 0);
  }

  /** Namespace the configured type names are completed with. */
  const SeriesNamespace: string := "PlotComPlus.Series."

  /**
    The class `Assembly.CreateInstance(typeName, ignoreCase: true)` picks for
    a configured type name; `None` where it would find no class.
  */
  function SeriesKindOf(typeName: string): (k: Option<SeriesKind>)
    ensures k == Some(Default) <==> Lower(typeName) == Lower(SeriesNamespace + "DefaultSeries")
    ensures k == Some(Memory) <==> Lower(typeName) == Lower(SeriesNamespace + "MemorySeries")
  {
    if Lower(typeName) == Lower(SeriesNamespace + "DefaultSeries") then Some(Default)
    else if Lower(typeName) == Lower(SeriesNamespace + "MemorySeries") then Some(Memory)
    else None
  }

  /** The class lookup ignores case: type names that differ only in case pick the same class. */
  lemma SeriesKindOfIgnoresCase(a: string, b: string)
    requires Lower(a) == Lower(b)
    ensures SeriesKindOf(a) == SeriesKindOf(b)
  {
  }
}
