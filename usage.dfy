/** plug/usage.go: the option names shown to users and the bucketed usage report. */
module UsageReport {
  import opened Wrappers
  import opened Text
  import opened EnvFlags

  /**
   * `fmtDroneYMLName`: the lower-cased env name without one leading "plugin_"
   * and then one leading "drone_".
   */
  function FmtDroneYMLName(envName: string): (r: string)
    ensures forall i :: 0 <= i < |r| ==> !IsUpperAscii(r[i])
    ensures IsSuffix(r, ToLower(envName))
  {
    TrimPrefix(TrimPrefix(ToLower(envName), "plugin_"), "drone_")
  }

  /** "plugin_" is stripped first, then "drone_": "PLUGIN_DRONE_" goes away entirely. */
  lemma FmtDroneYMLNameStripsBoth(rest: string)
    ensures FmtDroneYMLName("PLUGIN_DRONE_" + rest) == ToLower(rest)
  {
    var lr := ToLower(rest);
    ToLowerAppend("PLUGIN_DRONE_", rest);
    assert ToLower("PLUGIN_DRONE_") == "plugin_drone_";
    var s := "plugin_drone_" + lr;
    assert "plugin_" <= s;
    assert s[7..] == "drone_" + lr;
    assert "drone_" <= "drone_" + lr;
  }

  /** Each prefix is stripped at most once, in a fixed order: "DRONE_PLUGIN_" keeps its "plugin_". */
  lemma FmtDroneYMLNameKeepsPlugin(rest: string)
    ensures FmtDroneYMLName("DRONE_PLUGIN_" + rest) == "plugin_" + ToLower(rest)
  {
    var lr := ToLower(rest);
    ToLowerAppend("DRONE_PLUGIN_", rest);
    assert ToLower("DRONE_PLUGIN_") == "drone_plugin_";
    var s := "drone_plugin_" + lr;
    assert s[0] != "plugin_"[0];
    assert !("plugin_" <= s);
    assert "drone_" <= s;
    assert s[6..] == "plugin_" + lr;
  }

  /** The four groups of the report. */
  datatype Bucket = Unset | Default | Set | Errors

  /** A group's position in the report. */
  function Rank(b: Bucket): nat
  {
    match b
    case Unset => 0
    case Default => 1
    case Set => 2
    case Errors => 3
  }

  /**
   * The group the report puts a flag in: errors when it failed to parse or
   * holds a usage message, else set when it is set, else default when it has a
   * value, else unset.
   */
  function BucketOf(f: EnvFlag, ue: UsageErrors): (b: Bucket)
    ensures b == Errors <==> f.err.Some? || (f.flagName in ue && |ue[f.flagName]| > 0)
    ensures b == Set <==> b != Errors && f.isSet
    ensures b == Default <==> b != Errors && !f.isSet && f.value != ""
  {
    if f.err.Some? || |Messages(ue, f.flagName)| > 0 then Errors
    else if !f.isSet then (if f.value != "" then Default else Unset)
    else Set
  }

  /** The flags of `flags` in group `b`, in visit order. */
  function Filter(flags: seq<EnvFlag>, ue: UsageErrors, b: Bucket): (r: seq<EnvFlag>)
    ensures forall i :: 0 <= i < |r| ==> BucketOf(r[i], ue) == b
  {
    if flags == [] then []
    else
      var last := flags[|flags| - 1];
      var rest := Filter(flags[..|flags| - 1], ue, b);
      if BucketOf(last, ue) == b then rest + [last] else rest
  }

  /** All flags, group after group in report order. */
  function ReportOrder(flags: seq<EnvFlag>, ue: UsageErrors): seq<EnvFlag>
  {
    Filter(flags, ue, Unset) + Filter(flags, ue, Default) + Filter(flags, ue, Set) + Filter(flags, ue, Errors)
  }

  /** A group holds every copy of a flag of that group and none of any other. */
  lemma {:induction false} FilterCount(flags: seq<EnvFlag>, ue: UsageErrors, b: Bucket, x: EnvFlag)
    ensures multiset(Filter(flags, ue, b))[x] == if BucketOf(x, ue) == b then multiset(flags)[x] else 0
  {
    if flags != [] {
      var init, last := flags[..|flags| - 1], flags[|flags| - 1];
      FilterCount(init, ue, b, x);
      assert flags == init + [last];
    }
  }

  /** Every flag lands in exactly one group: the report order is a permutation of the flags. */
  lemma ReportOrderIsPermutation(flags: seq<EnvFlag>, ue: UsageErrors)
    ensures multiset(ReportOrder(flags, ue)) == multiset(flags)
  {
    forall x ensures multiset(ReportOrder(flags, ue))[x] == multiset(flags)[x] {
      FilterCount(flags, ue, Unset, x);
      FilterCount(flags, ue, Default, x);
      FilterCount(flags, ue, Set, x);
      FilterCount(flags, ue, Errors, x);
    }
  }

  predicate SortedByRank(s: seq<EnvFlag>, ue: UsageErrors)
  {
    forall i, j :: 0 <= i < j < |s| ==> Rank(BucketOf(s[i], ue)) <= Rank(BucketOf(s[j], ue))
  }

  lemma ConcatSorted(a: seq<EnvFlag>, b: seq<EnvFlag>, ue: UsageErrors, ra: nat, rb: nat)
    requires forall i :: 0 <= i < |a| ==> Rank(BucketOf(a[i], ue)) <= ra
    requires forall i :: 0 <= i < |b| ==> Rank(BucketOf(b[i], ue)) == rb
    requires ra <= rb && SortedByRank(a, ue)
    ensures SortedByRank(a + b, ue)
    ensures forall i :: 0 <= i < |a + b| ==> Rank(BucketOf((a + b)[i], ue)) <= rb
  {
    var s := a + b;
    forall i, j | 0 <= i < j < |s| ensures Rank(BucketOf(s[i], ue)) <= Rank(BucketOf(s[j], ue)) {
      if j < |a| {
        assert s[i] == a[i] && s[j] == a[j];
      } else if i < |a| {
        assert s[i] == a[i] && s[j] == b[j - |a|];
      } else {
        assert s[i] == b[i - |a|] && s[j] == b[j - |a|];
      }
    }
  }

  /** The report lists unset flags, then defaults, then set flags, then errors. */
  lemma ReportOrderSorted(flags: seq<EnvFlag>, ue: UsageErrors)
    ensures SortedByRank(ReportOrder(flags, ue), ue)
  {
    var u, d, s, e := Filter(flags, ue, Unset), Filter(flags, ue, Default), Filter(flags, ue, Set), Filter(flags, ue, Errors);
    ConcatSorted(u, d, ue, 0, 1);
    ConcatSorted(u + d, s, ue, 1, 2);
    ConcatSorted(u + d + s, e, ue, 2, 3);
  }

  /** The visitor of `usageFuncYml` that sorts the flags into the four groups. */
  method Partition(flags: seq<EnvFlag>, ue: UsageErrors)
    returns (unsetFlags: seq<EnvFlag>, defFlags: seq<EnvFlag>, setFlags: seq<EnvFlag>, errFlags: seq<EnvFlag>)
    ensures unsetFlags == Filter(flags, ue, Unset)
    ensures defFlags == Filter(flags, ue, Default)
    ensures setFlags == Filter(flags, ue, Set)
    ensures errFlags == Filter(flags, ue, Errors)
  {
    unsetFlags, defFlags, setFlags, errFlags := [], [], [], [];
    var i := 0;
    while i < |flags|
      invariant 0 <= i <= |flags|
      invariant unsetFlags == Filter(flags[..i], ue, Unset)
      invariant defFlags == Filter(flags[..i], ue, Default)
      invariant setFlags == Filter(flags[..i], ue, Set)
      invariant errFlags == Filter(flags[..i], ue, Errors)
    {
      var e := flags[i];
      assert flags[..i + 1][..i] == flags[..i];
      i := i + 1;
      if e.err.Some? || |Messages(ue, e.flagName)| > 0 {
        errFlags := errFlags + [e];
        continue;
      }
      if !e.isSet {
        if e.value != "" {
          defFlags := defFlags + [e];
          continue;
        }
        unsetFlags := unsetFlags + [e];
        continue;
      }
      setFlags := setFlags + [e];
    }
    assert flags[..|flags|] == flags;
  }

  /** How `writeUsage` treats one env name of a flag. */
  datatype NameGroup = Hidden | PluginGroup | RawGroup

  /** Names starting with "DRONE_" are hidden, other "PLUGIN_" names are option names, the rest raw env names. */
  function GroupOf(v: string): NameGroup
  {
    if "DRONE_" <= v then Hidden
    else if "PLUGIN_" <= v then PluginGroup
    else RawGroup
  }

  /** The names of group `g`, in their original order. */
  function NamesIn(names: seq<string>, g: NameGroup): (r: seq<string>)
    ensures forall i :: 0 <= i < |r| ==> GroupOf(r[i]) == g
  {
    if names == [] then []
    else
      var rest := NamesIn(names[..|names| - 1], g);
      var last := names[|names| - 1];
      if GroupOf(last) == g then rest + [last] else rest
  }

  function FmtAll(names: seq<string>): (r: seq<string>)
    ensures |r| == |names|
    ensures forall i :: 0 <= i < |names| ==> r[i] == FmtDroneYMLName(names[i])
  {
    seq(|names|, i requires 0 <= i < |names| => FmtDroneYMLName(names[i]))
  }

  lemma FmtAllAppend(names: seq<string>, v: string)
    ensures FmtAll(names + [v]) == FmtAll(names) + [FmtDroneYMLName(v)]
  {
  }

  function PluginNames(names: seq<string>): seq<string>
  {
    FmtAll(NamesIn(names, PluginGroup))
  }

  function RawNames(names: seq<string>): seq<string>
  {
    FmtAll(NamesIn(names, RawGroup))
  }

  /** Every env name is either hidden, grouped as a plugin option name, or listed as a raw env name. */
  lemma {:induction false} NameGroupsCover(names: seq<string>)
    ensures |NamesIn(names, Hidden)| + |NamesIn(names, PluginGroup)| + |NamesIn(names, RawGroup)| == |names|
  {
    if names != [] {
      NameGroupsCover(names[..|names| - 1]);
    }
  }

  /** A flag is rendered exactly when some env name of it does not start with "DRONE_". */
  lemma {:induction false} NamesShownIffNotAllDrone(names: seq<string>)
    ensures (|PluginNames(names)| == 0 && |RawNames(names)| == 0) <==> |NamesIn(names, Hidden)| == |names|
  {
    NameGroupsCover(names);
  }

  /** `nameLoop` of `writeUsage`: splits a flag's env names into the two groups shown. */
  method GroupNames(names: seq<string>) returns (pluginNames: seq<string>, rawNames: seq<string>)
    ensures pluginNames == PluginNames(names)
    ensures rawNames == RawNames(names)
  {
    pluginNames, rawNames := [], [];
    ghost var plugin: seq<string>, raw: seq<string> := [], [];
    for i := 0 to |names|
      invariant plugin == NamesIn(names[..i], PluginGroup)
      invariant raw == NamesIn(names[..i], RawGroup)
      invariant pluginNames == FmtAll(plugin) && rawNames == FmtAll(raw)
    {
      var v := names[i];
      assert names[..i + 1][..i] == names[..i];
      if "DRONE_" <= v {
        continue;
      }
      if "PLUGIN_" <= v {
        FmtAllAppend(plugin, v);
        pluginNames := pluginNames + [FmtDroneYMLName(v)];
        plugin := plugin + [v];
        continue;
      }
      FmtAllAppend(raw, v);
      rawNames := rawNames + [FmtDroneYMLName(v)];
      raw := raw + [v];
    }
    assert names[..|names|] == names;
  }

  /** The "set by" line of a flag. */
  datatype SetBy = SetByEnv(envName: string) | SetByFlag(flagName: string) | NotShown

  /** The rows `writeUsage` writes for one flag; an absent row is None. */
  datatype FlagUsage = FlagUsage(
    pluginNames: seq<string>,
    rawNames: seq<string>,
    usage: Option<string>,
    setBy: SetBy,
    envValue: Option<string>,
    value: Option<string>,
    parseError: Option<string>,
    usageErrors: Option<string>)

  /** The "set by" choice: the matched env name if fenv set the flag, else the flag name if it is set. */
  function SetByOf(f: EnvFlag): (r: SetBy)
    ensures r.SetByEnv? <==> f.isSelfSet
    ensures r.SetByFlag? <==> !f.isSelfSet && f.isSet
    ensures r.SetByEnv? ==> r.envName == FmtDroneYMLName(f.name)
    ensures r.SetByFlag? ==> r.flagName == f.flagName
  {
    if f.isSelfSet then SetByEnv(FmtDroneYMLName(f.name))
    else if f.isSet then SetByFlag(f.flagName)
    else NotShown
  }

  /**
   * What `writeUsage` outputs for a flag: nothing when every env name of it is
   * hidden; the flag's usage text only on the row of its option names.
   */
  function UsageOf(f: EnvFlag, ue: UsageErrors, debug: bool): (r: Option<FlagUsage>)
    ensures r.None? <==> |NamesIn(f.names, Hidden)| == |f.names|
    ensures r.Some? ==> (r.value.usage.Some? <==> |r.value.pluginNames| > 0)
    ensures r.Some? && r.value.usage.Some? ==> r.value.usage.value == f.usage
  {
    NamesShownIffNotAllDrone(f.names);
    var plugin, raw := PluginNames(f.names), RawNames(f.names);
    if |plugin| == 0 && |raw| == 0 then None
    else Some(FlagUsage(
      plugin, raw, if |plugin| > 0 then Some(f.usage) else None, SetByOf(f),
      if debug && f.envValue != "" then Some(f.envValue) else None,
      if f.value != "" then Some(f.value) else None,
      f.err,
      if f.flagName in ue then Some(Join(ue[f.flagName], "\n")) else None))
  }

  /** `writeUsage`. */
  method WriteUsage(f: EnvFlag, ue: UsageErrors, debug: bool) returns (u: Option<FlagUsage>)
    ensures u == UsageOf(f, ue, debug)
    ensures u.None? <==> |NamesIn(f.names, Hidden)| == |f.names|
    ensures u.Some? ==> (u.value.usage.Some? <==> |u.value.pluginNames| > 0)
    ensures u.Some? ==> u.value.setBy == SetByOf(f)
    ensures u.Some? ==> (u.value.value.Some? <==> f.value != "")
    ensures u.Some? ==> (u.value.envValue.Some? <==> debug && f.envValue != "")
    ensures u.Some? ==> (u.value.usageErrors.Some? <==> f.flagName in ue)
  {
    var pluginNames, rawNames := GroupNames(f.names);
    NamesShownIffNotAllDrone(f.names);
    if |pluginNames| == 0 && |rawNames| == 0 {
      return None;
    }
    var setBy := NotShown;
    if f.isSelfSet {
      setBy := SetByEnv(FmtDroneYMLName(f.name));
    } else if f.isSet {
      setBy := SetByFlag(f.flagName);
    }
    var usage := None;
    if |pluginNames| > 0 {
      usage := Some(f.usage);
    }
    var envValue := None;
    if debug && f.envValue != "" {
      envValue := Some(f.envValue);
    }
    var value := None;
    if f.value != "" {
      value := Some(f.value);
    }
    var usageErrors := None;
    if f.flagName in ue {
      usageErrors := Some(Join(ue[f.flagName], "\n"));
    }
    u := Some(FlagUsage(pluginNames, rawNames, usage, setBy, envValue, value, f.err, usageErrors));
  }

  /** One row of the report. */
  datatype Row = Header(title: string) | Entry(usage: FlagUsage)

  /** The rows of one flag: its entry, unless it is hidden. */
  function EntryRows(f: EnvFlag, ue: UsageErrors, debug: bool): seq<Row>
  {
    match UsageOf(f, ue, debug)
    case None => []
    case Some(u) => [Entry(u)]
  }

  /** The rows of a list of flags. */
  function Entries(fs: seq<EnvFlag>, ue: UsageErrors, debug: bool): seq<Row>
  {
    if fs == [] then []
    else Entries(fs[..|fs| - 1], ue, debug) + EntryRows(fs[|fs| - 1], ue, debug)
  }

  /** A non-empty group: its header in debug mode, then its flags' rows. */
  function Section(fs: seq<EnvFlag>, title: string, ue: UsageErrors, debug: bool): seq<Row>
  {
    if |fs| == 0 then []
    else (if debug then [Header(title)] else []) + Entries(fs, ue, debug)
  }

  /** The rows of the report, group by group in the order of `ReportOrder`. */
  function Report(flags: seq<EnvFlag>, ue: UsageErrors, debug: bool): seq<Row>
  {
    Section(Filter(flags, ue, Unset), "UNSET", ue, debug)
    + Section(Filter(flags, ue, Default), "DEFAULT", ue, debug)
    + Section(Filter(flags, ue, Set), "SET", ue, debug)
    + Section(Filter(flags, ue, Errors), "ERRORS", ue, debug)
  }

  /** The rows of a group are the rows of its flags in order: rendering distributes over concatenation. */
  lemma {:induction false} EntriesAppend(a: seq<EnvFlag>, b: seq<EnvFlag>, ue: UsageErrors, debug: bool)
    ensures Entries(a + b, ue, debug) == Entries(a, ue, debug) + Entries(b, ue, debug)
  {
    if b != [] {
      var b' := b[..|b| - 1];
      assert (a + b)[..|a + b| - 1] == a + b';
      assert (a + b)[|a + b| - 1] == b[|b| - 1];
      EntriesAppend(a, b', ue, debug);
    } else {
      assert a + b == a;
    }
  }

  lemma SectionWithoutHeader(fs: seq<EnvFlag>, title: string, ue: UsageErrors)
    ensures Section(fs, title, ue, false) == Entries(fs, ue, false)
  {
    if |fs| > 0 {
      assert Section(fs, title, ue, false) == [] + Entries(fs, ue, false);
    }
  }

  /** Outside debug mode the report is the rows of all flags in report order. */
  lemma ReportWithoutHeaders(flags: seq<EnvFlag>, ue: UsageErrors)
    ensures Report(flags, ue, false) == Entries(ReportOrder(flags, ue), ue, false)
  {
    var u, d, s, e := Filter(flags, ue, Unset), Filter(flags, ue, Default), Filter(flags, ue, Set), Filter(flags, ue, Errors);
    SectionWithoutHeader(u, "UNSET", ue);
    SectionWithoutHeader(d, "DEFAULT", ue);
    SectionWithoutHeader(s, "SET", ue);
    SectionWithoutHeader(e, "ERRORS", ue);
    EntriesAppend(u, d, ue, false);
    EntriesAppend(u + d, s, ue, false);
    EntriesAppend(u + d + s, e, ue, false);
    assert ReportOrder(flags, ue) == u + d + s + e;
  }

  /** The loop of one group: `writeUsage` for each flag, in order. */
  method WriteEntries(fs: seq<EnvFlag>, ue: UsageErrors, debug: bool) returns (rows: seq<Row>)
    ensures rows == Entries(fs, ue, debug)
  {
    rows := [];
    for i := 0 to |fs|
      invariant rows == Entries(fs[..i], ue, debug)
    {
      var u := WriteUsage(fs[i], ue, debug);
      EntriesStep(fs, i, ue, debug);
      if u.Some? {
        rows := rows + [Entry(u.value)];
      }
    }
    assert fs[..|fs|] == fs;
  }

  lemma EntriesStep(fs: seq<EnvFlag>, i: nat, ue: UsageErrors, debug: bool)
    requires i < |fs|
    ensures Entries(fs[..i + 1], ue, debug) == Entries(fs[..i], ue, debug) + EntryRows(fs[i], ue, debug)
  {
    assert fs[..i + 1][..i] == fs[..i];
  }

  /** One group: nothing if it is empty, else its debug header and then its flags. */
  method WriteSection(fs: seq<EnvFlag>, title: string, ue: UsageErrors, debug: bool) returns (rows: seq<Row>)
    ensures rows == Section(fs, title, ue, debug)
  {
    if |fs| == 0 {
      return [];
    }
    var entries := WriteEntries(fs, ue, debug);
    rows := (if debug then [Header(title)] else []) + entries;
  }

  /** `usageFuncYml`: partitions the flags and writes the non-empty groups in order. */
  method UsageFuncYml(flags: seq<EnvFlag>, ue: UsageErrors, debug: bool) returns (rows: seq<Row>)
    ensures rows == Report(flags, ue, debug)
  {
    var unsetFlags, defFlags, setFlags, errFlags := Partition(flags, ue);
    var unsetRows := WriteSection(unsetFlags, "UNSET", ue, debug);
    var defRows := WriteSection(defFlags, "DEFAULT", ue, debug);
    var setRows := WriteSection(setFlags, "SET", ue, debug);
    var errRows := WriteSection(errFlags, "ERRORS", ue, debug);
    rows := unsetRows + defRows + setRows + errRows;
  }
}
