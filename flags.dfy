/** plug/flag.go: drone flag registration, the comma-list flag value and env-file activation. */
module Flags {
  import opened Wrappers
  import opened Text

  newtype int64 = x: int | -0x8000_0000_0000_0000 <= x < 0x8000_0000_0000_0000

  /** The Go type of the variable a drone flag is bound to. */
  datatype Kind = StringKind | BoolKind | Int64Kind | OtherKind(typeName: string)

  /** A flag's typed value. */
  datatype Value =
    | StringValue(s: string)
    | BoolValue(b: bool)
    | Int64Value(i: int64)
    | StringListValue(items: seq<string>)

  /** A flag defined on the wrapped `flag.FlagSet`. */
  datatype FlagDef = FlagDef(name: string, usage: string, default: Value)

  /** The env names given to fenv for a flag through `FlagSet.Env`. */
  datatype EnvBinding = EnvBinding(flagName: string, envNames: seq<string>)

  /** Prepended to every drone flag name; empty outside the package's own tests. */
  const FlagNamePrefix: string := ""

  const EnvFileFlagName: string := "env_file"

  /** The character droneFlag puts in the env name for `c`, before upper-casing. */
  function EnvNameChar(c: char): char
  {
    if c == '.' || c == '-' then '_' else c
  }

  /**
   * The env name droneFlag derives from a flag name: "drone_" in front, every
   * '.' and '-' turned into '_', then upper-cased.
   */
  function DroneEnvName(name: string): (r: string)
    ensures |r| == 6 + |name|
    ensures r[..6] == "DRONE_"
    ensures forall i :: 0 <= i < |name| ==> r[6 + i] == UpperChar(EnvNameChar(name[i]))
    ensures '.' !in r && '-' !in r
    ensures forall i :: 0 <= i < |r| ==> !IsLowerAscii(r[i])
  {
    ToUpper(ReplaceAll(ReplaceAll("drone_" + name, '.', '_'), '-', '_'))
  }

  /** A flag name converted character by character: '.' and '-' to '_', then upper case. */
  function ConvertedName(name: string): (r: string)
    ensures |r| == |name|
    ensures forall i :: 0 <= i < |name| ==> r[i] == UpperChar(EnvNameChar(name[i]))
  {
    if name == [] then [] else [UpperChar(EnvNameChar(name[0]))] + ConvertedName(name[1..])
  }

  /** The env name is "DRONE_" followed by the converted flag name. */
  lemma DroneEnvNameIs(name: string)
    ensures DroneEnvName(name) == "DRONE_" + ConvertedName(name)
  {
    var r := DroneEnvName(name);
    assert r == r[..6] + r[6..];
    assert r[6..] == ConvertedName(name);
  }

  /** The default droneFlag registers for each supported type; any other type panics. */
  function DroneDefault(kind: Kind): (r: Result<Value>)
    ensures r.Failure? <==> kind.OtherKind?
    ensures kind.StringKind? ==> r == Success(StringValue(""))
    ensures kind.BoolKind? ==> r == Success(BoolValue(false))
    ensures kind.Int64Kind? ==> r == Success(Int64Value(-1))
  {
    match kind
    case StringKind => Success(StringValue(""))
    case BoolKind => Success(BoolValue(false))
    case Int64Kind => Success(Int64Value(-1))
    case OtherKind(t) => Failure("panic: " + t)
  }

  /** The `stringSliceFlag` value: a string list read and written as comma-separated text. */
  class StringSliceFlag {
    var items: seq<string>

    constructor (items: seq<string>)
      ensures this.items == items
    {
      this.items := items;
    }

    /** `String()`: the items joined with ','; `Set` of it restores a non-empty list whose items hold no comma. */
    function String(): (r: string)
      reads this
      ensures (|items| >= 1 && forall i :: 0 <= i < |items| ==> ',' !in items[i]) ==> Split(r, ',') == items
    {
      if |items| >= 1 && (forall i :: 0 <= i < |items| ==> ',' !in items[i]) then
        SplitJoin(items, ',');
        Join(items, ",")
      else Join(items, ",")
    }

    /** `Set`: replaces the whole list by the pieces of `value` between commas; never fails. */
    method Set(value: string) returns (err: Option<string>)
      modifies this
      ensures items == Split(value, ',')
      ensures String() == value
      ensures err == None
    {
      items := Split(value, ',');
      JoinSplit(value, ',');
      err := None;
    }
  }

  /** The plug `FlagSet`: the flags it defines, the env names it binds, and the env-file state. */
  class FlagSet {
    var flags: seq<FlagDef>
    var bindings: seq<EnvBinding>
    var envFiles: seq<string>
    var envFilesActive: bool

    constructor ()
      ensures flags == [] && bindings == [] && envFiles == [] && !envFilesActive
    {
      flags, bindings, envFiles, envFilesActive := [], [], [], false;
    }

    /** `Env`: hands the flag's env names to fenv. */
    method Env(flagName: string, envNames: seq<string>)
      modifies this`bindings
      ensures bindings == old(bindings) + [EnvBinding(flagName, envNames)]
    {
      bindings := bindings + [EnvBinding(flagName, envNames)];
    }

    /** `StringSliceVar`: defines a comma-list flag whose default is the current list. */
    method StringSliceVar(items: seq<string>, name: string, usage: string)
      modifies this`flags
      ensures flags == old(flags) + [FlagDef(name, usage, StringListValue(items))]
    {
      flags := flags + [FlagDef(name, usage, StringListValue(items))];
    }

    /**
     * `droneFlag`: defines the flag with its type's default and a usage text that
     * names the derived env name, and binds that env name to it. A variable
     * of another type panics before anything is registered.
     */
    method DroneFlag(name: string, kind: Kind, help: string) returns (ok: bool)
      modifies this`flags, this`bindings
      ensures ok <==> !kind.OtherKind?
      ensures !ok ==> flags == old(flags) && bindings == old(bindings)
      ensures ok ==> flags == old(flags) + [FlagDef(FlagNamePrefix + name, help + " (" + DroneEnvName(FlagNamePrefix + name) + ")", DroneDefault(kind).value)]
      ensures ok ==> bindings == old(bindings) + [EnvBinding(FlagNamePrefix + name, [DroneEnvName(FlagNamePrefix + name)])]
    {
      var full := FlagNamePrefix + name;
      var s := DroneEnvName(full);
      var usage := help + " (" + s + ")";
      var def := DroneDefault(kind);
      if def.Failure? {
        return false;
      }
      flags := flags + [FlagDef(full, usage, def.value)];
      Env(full, [s]);
      ok := true;
    }

    /**
     * `EnvFiles`: turns on env-file loading; a non-empty list replaces the default
     * file list, and the env_file flag is defined on the first call only.
     */
    method EnvFiles(names: seq<string>)
      modifies this
      ensures envFiles == if |names| > 0 then names else old(envFiles)
      ensures envFilesActive
      ensures flags == old(flags) + (if old(envFilesActive) then [] else [FlagDef(EnvFileFlagName, "source env file", StringListValue(envFiles))])
      ensures bindings == old(bindings)
    {
      if |names| > 0 {
        envFiles := names;
      }
      if !envFilesActive {
        StringSliceVar(envFiles, EnvFileFlagName, "source env file");
      }
      envFilesActive := true;
    }
  }

  /** A comma list survives `Set(String())` exactly when it is non-empty and no item holds a comma. */
  lemma StringSliceRoundTrip(items: seq<string>)
    ensures Split(Join(items, ","), ',') == items <==>
      |items| >= 1 && forall i :: 0 <= i < |items| ==> ',' !in items[i]
  {
    if |items| >= 1 && forall i :: 0 <= i < |items| ==> ',' !in items[i] {
      SplitJoin(items, ',');
    }
  }

  /** The empty list does not survive: it serialises to "", which parses as one empty item. */
  lemma StringSliceEmptyListNotRestored()
    ensures Join([], ",") == "" && Split("", ',') == [""]
  {
  }

  lemma StringSliceSetExample()
    ensures Split("one,two,three", ',') == ["one", "two", "three"]
  {
    SplitJoin(["one", "two", "three"], ',');
    assert Join(["one", "two", "three"], ",") == "one,two,three";
  }
}
