/**
  `Settings.DesiredSeries`: the application settings whose key starts with
  `Column.` name a series to plot; the rest of the key is the series name and
  the value names its class in the `PlotComPlus.Series` namespace.
*/
module Settings {
  import opened Wrappers
  import opened Strings
  import opened SeriesTypes

  /** One application setting, as `AllKeys` lists it together with its value. */
  datatype Setting = Setting(key: string, value: string)

  /** One entry of the result: the series name and the full name of its class. */
  datatype ColumnEntry = ColumnEntry(name: string, typeName: string)

  /** The key prefix that marks a series setting. */
  const Prefix: string := "Column."

  /** The entry a prefixed setting produces. */
  function EntryOf(s: Setting): ColumnEntry
    requires Prefix <= s.key
  {
    ColumnEntry(s.key[|Prefix|..], SeriesNamespace + s.value)
  }

  /** The filter-map the loop computes: the prefixed settings, in key order, as entries. */
  function ColumnEntries(settings: seq<Setting>): seq<ColumnEntry>
    decreases |settings|
  {
    if settings == [] then []
    else
      var last := settings[|settings| - 1];
      ColumnEntries(settings[..|settings| - 1]) + (if Prefix <= last.key then [EntryOf(last)] else [])
  }

  /** The positions of the prefixed settings, in order. */
  function PrefixedIndices(settings: seq<Setting>): (ix: seq<nat>)
    ensures forall k :: 0 <= k < |ix| ==> ix[k] < |settings| && Prefix <= settings[ix[k]].key
    ensures forall k1, k2 :: 0 <= k1 < k2 < |ix| ==> ix[k1] < ix[k2]
    ensures forall j :: 0 <= j < |settings| && Prefix <= settings[j].key ==> j in ix
    decreases |settings|
  {
    if settings == [] then []
    else
      var n := |settings| - 1;
      var init := PrefixedIndices(settings[..n]);
      if Prefix <= settings[n].key then init + [n] else init
  }

  /**
    Exactly the prefixed settings produce entries, one each, in key order:
    the k-th entry comes from the k-th setting whose key starts with `Column.`.
  */
  lemma {:induction false} ColumnEntriesFollowKeys(settings: seq<Setting>)
    ensures var r, ix := ColumnEntries(settings), PrefixedIndices(settings);
      && |r| == |ix|
      && forall k :: 0 <= k < |r| ==> r[k] == EntryOf(settings[ix[k]])
    decreases |settings|
  {
    if settings != [] {
      var n := |settings| - 1;
      var init := settings[..n];
      ColumnEntriesFollowKeys(init);
      var r0, ix0 := ColumnEntries(init), PrefixedIndices(init);
      var r, ix := ColumnEntries(settings), PrefixedIndices(settings);
      if Prefix <= settings[n].key {
        assert r == r0 + [EntryOf(settings[n])] && ix == ix0 + [n];
      } else {
        assert r == r0 && ix == ix0;
      }
      forall k | 0 <= k < |r|
        ensures r[k] == EntryOf(settings[ix[k]])
      {
        if k < |r0| {
          assert r[k] == r0[k] && ix[k] == ix0[k];
          assert init[ix0[k]] == settings[ix0[k]];
        }
      }
    }
  }

  /** Every entry comes from a prefixed setting: its name is the key without `Column.`. */
  lemma {:induction false} EntriesComeFromPrefixedKeys(settings: seq<Setting>)
    ensures forall e :: e in ColumnEntries(settings) ==>
      exists j :: 0 <= j < |settings| && Prefix <= settings[j].key && e == EntryOf(settings[j])
  {
    ColumnEntriesFollowKeys(settings);
    var r, ix := ColumnEntries(settings), PrefixedIndices(settings);
    forall e | e in r
      ensures exists j :: 0 <= j < |settings| && Prefix <= settings[j].key && e == EntryOf(settings[j])
    {
      var k :| 0 <= k < |r| && r[k] == e;
      assert e == EntryOf(settings[ix[k]]);
    }
  }

  /** With no prefixed key the result is empty. */
  lemma {:induction false} NoPrefixedKeyNoEntries(settings: seq<Setting>)
    requires forall j :: 0 <= j < |settings| ==> !(Prefix <= settings[j].key)
    ensures ColumnEntries(settings) == []
    decreases |settings|
  {
    if settings != [] {
      NoPrefixedKeyNoEntries(settings[..|settings| - 1]);
    }
  }

  /** `DesiredSeries(appSettings)`: walks the keys and collects one entry per prefixed key. */
  method DesiredSeries(settings: seq<Setting>) returns (result: seq<ColumnEntry>)
    ensures result == ColumnEntries(settings)
  {
    result := [];
    for i := 0 to |settings|
      invariant result == ColumnEntries(settings[..i])
    {
      assert settings[..i + 1][..i] == settings[..i];
      var key := settings[i].key;
      if Prefix <= key {
        var seriesName := key[|Prefix|..];
        var seriesType := SeriesNamespace + settings[i].value;
        result := result + [ColumnEntry(seriesName, seriesType)];
      }
    }
    assert settings[..|settings|] == settings;
  }

  /** A `Column.` key yields the rest of the key and the namespaced value. */
  lemma EntryOfColumn(name: string, value: string)
    ensures Prefix <= Prefix + name
    ensures EntryOf(Setting(Prefix + name, value)) == ColumnEntry(name, SeriesNamespace + value)
  {
    assert (Prefix + name)[|Prefix|..] == name;
  }

  /** The full class names of the two series kinds. */
  lemma FullTypeNames()
    ensures SeriesNamespace + "DefaultSeries" == "PlotComPlus.Series.DefaultSeries"
    ensures SeriesNamespace + "MemorySeries" == "PlotComPlus.Series.MemorySeries"
  {
  }

  /** Text after a common prefix decides equality. */
  lemma EqualAfterPrefix(p: string, a: string, b: string)
    ensures p + a == p + b <==> a == b
  {
    if p + a == p + b {
      assert a == (p + a)[|p|..] && b == (p + b)[|p|..];
    }
  }

  /**
    The type name of a `Column.` entry picks the class its value names,
    ignoring case: "DefaultSeries" the default series, "MemorySeries" the
    memory series, and no class for any other value.
  */
  lemma EntryKind(s: Setting)
    requires Prefix <= s.key
    ensures SeriesKindOf(EntryOf(s).typeName) == Some(Default) <==> Lower(s.value) == Lower("DefaultSeries")
    ensures SeriesKindOf(EntryOf(s).typeName) == Some(Memory) <==> Lower(s.value) == Lower("MemorySeries")
    ensures SeriesKindOf(EntryOf(s).typeName) == None <==>
      Lower(s.value) != Lower("DefaultSeries") && Lower(s.value) != Lower("MemorySeries")
  {
    var ns := SeriesNamespace;
    assert Lower(ns + s.value) == Lower(ns) + Lower(s.value);
    assert Lower(ns + "DefaultSeries") == Lower(ns) + Lower("DefaultSeries");
    assert Lower(ns + "MemorySeries") == Lower(ns) + Lower("MemorySeries");
    EqualAfterPrefix(Lower(ns), Lower(s.value), Lower("DefaultSeries"));
    EqualAfterPrefix(Lower(ns), Lower(s.value), Lower("MemorySeries"));
  }

  /** The settings of the unit test: two column keys and an unrelated key. */
  method SettingsExample() returns (entries: seq<ColumnEntry>)
    ensures entries == [ColumnEntry("%ProcessorTime", "PlotComPlus.Series.DefaultSeries"),
                        ColumnEntry("PrivateBytes", "PlotComPlus.Series.MemorySeries")]
    ensures SeriesKindOf(entries[0].typeName) == Some(Default) && SeriesKindOf(entries[1].typeName) == Some(Memory)
  {
    var settings := [Setting(Prefix + "%ProcessorTime", "DefaultSeries"),
                     Setting(Prefix + "PrivateBytes", "MemorySeries"),
                     Setting("Some Other Key", "Some Other Value")];
    assert !(Prefix <= "Some Other Key") by {
      assert "Some Other Key"[0] != Prefix[0];
    }
    var first := ColumnEntry("%ProcessorTime", SeriesNamespace + "DefaultSeries");
    var second := ColumnEntry("PrivateBytes", SeriesNamespace + "MemorySeries");
    FullTypeNames();
    EntryOfColumn("%ProcessorTime", "DefaultSeries");
    EntryOfColumn("PrivateBytes", "MemorySeries");
    assert ColumnEntries(settings[..1]) == [first] by {
      assert settings[..1][..0] == [];
    }
    assert ColumnEntries(settings[..2]) == [first, second] by {
      assert settings[..2][..1] == settings[..1];
    }
    assert ColumnEntries(settings) == [first, second] by {
      assert settings[..2] == settings[..|settings| - 1];
    }
    entries := DesiredSeries(settings);
  }
}
