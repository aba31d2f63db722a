/** plug/service.go: service configuration, env-file loading, the run verdict and `Err`. */
module Services {
  import opened Wrappers
  import opened Text
  import opened Errors
  import opened EnvFlags
  import Flags
  import opened UsageLog
  import opened UsageReport

  /** The `flag.FlagSet` a service parses: the process-wide one or one given by `SetFlagSet`. */
  datatype FlagSetRef = CommandLine | FlagSetId(id: nat)

  /** Where the environment comes from: the process (`fenv.OSEnv`) or a function given by `SetEnvFunc`. */
  datatype EnvSource = OSEnv | EnvFuncId(id: nat)

  /** The service's `Logger`: the `log.Logger` it writes to, if any, and whether `init` tied it to the service. */
  datatype Logger = Logger(logger: Option<nat>, bound: bool)

  /** A `ServiceOption`; `NilOption` is a nil function value. Handles stand for the Go values passed in. */
  datatype ServiceOption =
    | SetFlagSet(flagSet: nat)
    | SetEnvFunc(envFn: nat)
    | SetArgsFunc(argsFn: nat)
    | SetLogger(logger: nat)
    | ContinueOnError
    | NilOption

  /** The fields options write. */
  datatype Config = Config(
    fs: Option<FlagSetRef>,
    envFunc: Option<EnvSource>,
    argsFunc: Option<nat>,
    log: Option<Logger>,
    continueOnError: bool)

  const EmptyConfig: Config := Config(None, None, None, None, false)

  /** What one option does to a service. `SetLogger` reuses an existing Logger and only swaps its `log.Logger`. */
  function ApplyOption(c: Config, o: ServiceOption): Config
    requires !o.NilOption?
  {
    match o
    case SetFlagSet(fs) => c.(fs := Some(FlagSetId(fs)))
    case SetEnvFunc(fn) => c.(envFunc := Some(EnvFuncId(fn)))
    case SetArgsFunc(fn) => c.(argsFunc := Some(fn))
    case SetLogger(l) =>
      c.(log := Some(if c.log.Some? then c.log.value.(logger := Some(l)) else Logger(Some(l), false)))
    case ContinueOnError => c.(continueOnError := true)
  }

  /** The configuration `NewService` builds: the options applied in order to a zero service. */
  function Configure(opts: seq<ServiceOption>): Config
    requires NilOption !in opts
  {
    if opts == [] then EmptyConfig
    else ApplyOption(Configure(opts[..|opts| - 1]), opts[|opts| - 1])
  }

  /** Applying the same option twice is the same as applying it once. */
  lemma ApplyOptionIdempotent(c: Config, o: ServiceOption)
    requires !o.NilOption?
    ensures ApplyOption(ApplyOption(c, o), o) == ApplyOption(c, o)
  {
  }

  /** `SetLogger` on a service that already has a Logger keeps that Logger's tie to the service. */
  lemma SetLoggerKeepsLogger(c: Config, l: nat)
    requires c.log.Some?
    ensures ApplyOption(c, SetLogger(l)).log == Some(Logger(Some(l), c.log.value.bound))
  {
  }

  /** Of several options of one kind the last one decides. */
  lemma {:induction false} ConfigureLastFlagSetWins(opts: seq<ServiceOption>, fs: nat, rest: seq<ServiceOption>)
    requires NilOption !in opts + [SetFlagSet(fs)] + rest
    requires forall i :: 0 <= i < |rest| ==> !rest[i].SetFlagSet?
    ensures Configure(opts + [SetFlagSet(fs)] + rest).fs == Some(FlagSetId(fs))
  {
    var all := opts + [SetFlagSet(fs)] + rest;
    if rest == [] {
      assert all[..|all| - 1] == opts;
    } else {
      var rest' := rest[..|rest| - 1];
      assert all[..|all| - 1] == opts + [SetFlagSet(fs)] + rest';
      assert all[|all| - 1] == rest[|rest| - 1];
      ConfigureLastFlagSetWins(opts, fs, rest');
    }
  }

  /** True when the environment says the plugin runs under drone (`DRONE=true`). */
  predicate AsPlugin(env: Env) { Get(env, "DRONE") == "true" }

  /** True when the environment turns on plugin debug mode (`PLUGIN_PLUGIN_DEBUG` non-empty). */
  predicate DebugEnabled(env: Env) { Get(env, "PLUGIN_PLUGIN_DEBUG") != "" }

  /** The argument that announces an env file list on the command line. */
  const EnvFileArg: string := "-" + Flags.EnvFileFlagName

  /** The position of the first `x` in `args`, or `|args|` if there is none. */
  function FirstIndex(args: seq<string>, x: string): (i: nat)
    ensures i <= |args|
    ensures i < |args| ==> args[i] == x
    ensures forall j :: 0 <= j < i ==> args[j] != x
  {
    if args == [] then 0
    else if args[0] == x then 0
    else 1 + FirstIndex(args[1..], x)
  }

  /**
   * The labelled `loop` of `readEnvfiles`: picks out the first "-env_file" and the
   * argument right after it, if any.
   */
  method ScanEnvFileArgs(args: seq<string>) returns (picked: seq<string>)
    ensures |picked| <= 2
    ensures FirstIndex(args, EnvFileArg) == |args| ==> picked == []
    ensures FirstIndex(args, EnvFileArg) == |args| - 1 ==> picked == [EnvFileArg]
    ensures FirstIndex(args, EnvFileArg) < |args| - 1 ==> picked == [EnvFileArg, args[FirstIndex(args, EnvFileArg) + 1]]
  {
    ghost var first := FirstIndex(args, EnvFileArg);
    picked := [];
    var i := 0;
    while i < |args|
      invariant 0 <= i <= |args|
      invariant picked == [] ==> first >= i
      invariant picked != [] ==> picked == [EnvFileArg] && first == i - 1
    {
      var arg := args[i];
      i := i + 1;
      if |picked| == 0 && arg == EnvFileArg {
        picked := picked + [arg];
        continue;
      }
      if |picked| == 1 {
        picked := picked + [arg];
        break;
      }
    }
  }

  /** One env file laid over the environment: keys already present keep their value. */
  function MergeFile(env: Env, e: Env): (r: Env)
    ensures r.Keys == env.Keys + e.Keys
    ensures forall k :: k in env ==> r[k] == env[k]
    ensures forall k :: k in e && k !in env ==> r[k] == e[k]
  {
    map k | k in env.Keys + e.Keys :: if k in env then env[k] else e[k]
  }

  /** The environment after loading `names` in order; a name missing from `files` fails to load and is skipped. */
  function Merged(env: Env, names: seq<string>, files: map<string, Env>): Env
  {
    if names == [] then env
    else
      var m := Merged(env, names[..|names| - 1], files);
      var last := names[|names| - 1];
      if last in files then MergeFile(m, files[last]) else m
  }

  /** The keys of the files among `names` that load. */
  function LoadedKeys(names: seq<string>, files: map<string, Env>): set<string>
  {
    if names == [] then {}
    else
      var last := names[|names| - 1];
      LoadedKeys(names[..|names| - 1], files) + (if last in files then files[last].Keys else {})
  }

  /** The merge never changes a key that was already in the environment. */
  lemma {:induction false} MergedKeepsExisting(env: Env, names: seq<string>, files: map<string, Env>, k: string)
    requires k in env
    ensures k in Merged(env, names, files) && Merged(env, names, files)[k] == env[k]
  {
    if names != [] {
      MergedKeepsExisting(env, names[..|names| - 1], files, k);
    }
  }

  /** After the merge the environment holds its own keys and every key of every file that loaded, and no others. */
  lemma {:induction false} MergedKeys(env: Env, names: seq<string>, files: map<string, Env>)
    ensures Merged(env, names, files).Keys == env.Keys + LoadedKeys(names, files)
  {
    if names != [] {
      MergedKeys(env, names[..|names| - 1], files);
    }
  }

  /** A key new to the environment takes its value from the earliest loaded file, in list order, that defines it. */
  lemma {:induction false} MergedEarliestWins(env: Env, names: seq<string>, files: map<string, Env>, k: string, i: nat)
    requires k !in env
    requires i < |names| && names[i] in files && k in files[names[i]]
    requires forall j :: 0 <= j < i ==> names[j] !in files || k !in files[names[j]]
    ensures k in Merged(env, names, files) && Merged(env, names, files)[k] == files[names[i]][k]
  {
    var init := names[..|names| - 1];
    if i == |names| - 1 {
      NotLoadedBefore(env, init, files, k);
    } else {
      MergedEarliestWins(env, init, files, k, i);
    }
  }

  lemma {:induction false} NotLoadedBefore(env: Env, names: seq<string>, files: map<string, Env>, k: string)
    requires k !in env
    requires forall j :: 0 <= j < |names| ==> names[j] !in files || k !in files[names[j]]
    ensures k !in Merged(env, names, files)
  {
    if names != [] {
      NotLoadedBefore(env, names[..|names| - 1], files, k);
    }
  }

  /**
   * The labelled `files` loop of `readEnvfiles`: loads each file in order, skips
   * one that fails, and adds only keys the environment does not have yet.
   */
  method MergeEnvFiles(env: Env, envfiles: seq<string>, files: map<string, Env>) returns (merged: Env)
    ensures merged == Merged(env, envfiles, files)
  {
    merged := env;
    for i := 0 to |envfiles|
      invariant merged == Merged(env, envfiles[..i], files)
    {
      assert envfiles[..i + 1][..i] == envfiles[..i];
      var filename := envfiles[i];
      if filename !in files {
        continue;
      }
      var e := files[filename];
      ghost var before := merged;
      var keys := e.Keys;
      while keys != {}
        invariant keys <= e.Keys
        invariant merged.Keys == before.Keys + (e.Keys - keys)
        invariant forall k :: k in before ==> merged[k] == before[k]
        invariant forall k :: k in e.Keys - keys && k !in before ==> merged[k] == e[k]
        decreases keys
      {
        var k :| k in keys;
        if k !in merged {
          merged := merged[k := e[k]];
        }
        keys := keys - {k};
      }
      assert merged == MergeFile(before, e);
    }
    assert envfiles[..|envfiles|] == envfiles;
  }

  /**
   * The env files `readEnvfiles` loads: a list after "-env_file" on the command
   * line wins, else the one fenv read from the environment, else the defaults.
   */
  function EnvFileList(defaults: seq<string>, envFileVar: Option<string>, args: seq<string>): seq<string>
  {
    var i := FirstIndex(args, EnvFileArg);
    if i < |args| - 1 then Split(args[i + 1], ',')
    else if envFileVar.Some? then Split(envFileVar.value, ',')
    else defaults
  }

  /**
   * `readEnvfiles`. `envFileVar` is the value fenv finds for the env_file flag
   * in the environment; `args` are the command-line arguments after the program
   * name. A trailing "-env_file" without a value is a fatal flag error.
   */
  method ReadEnvFiles(env: Env, defaults: seq<string>, envFileVar: Option<string>, args: seq<string>, files: map<string, Env>)
    returns (r: Result<Env>)
    ensures r.Failure? <==> FirstIndex(args, EnvFileArg) == |args| - 1
    ensures r.Success? ==> r.value == Merged(env, EnvFileList(defaults, envFileVar, args), files)
  {
    var slice := new Flags.StringSliceFlag(defaults);
    if envFileVar.Some? {
      var _ := slice.Set(envFileVar.value);
    }
    var picked := ScanEnvFileArgs(args);
    if |picked| == 1 {
      return Failure("flag needs an argument: " + EnvFileArg);
    }
    if |picked| == 2 {
      var _ := slice.Set(picked[1]);
    }
    var merged := MergeEnvFiles(env, slice.items, files);
    r := Success(merged);
  }

  /** The visitor of `Run` that looks for a flag fenv failed to parse. */
  method AnyParseError(flags: seq<EnvFlag>) returns (found: bool)
    ensures found <==> exists i :: 0 <= i < |flags| && flags[i].err.Some?
  {
    found := false;
    for i := 0 to |flags|
      invariant found <==> exists j :: 0 <= j < i && flags[j].err.Some?
    {
      if flags[i].err.Some? {
        found := true;
      }
    }
  }

  /** The step at which a run stopped. */
  datatype Stage = EnvFileStage | PluginSetupStage | EnvParseStage | ArgParseStage | ExecStage

  /**
   * How `Run` ends: normally; failed at a stage, with or without a call of the
   * flag set's `Usage`, and with or without `os.Exit(1)`; or in a panic.
   */
  datatype RunOutcome = Completed | Failed(stage: Stage, usageCalled: bool, exited: bool) | PanickedAt(stage: Stage)

  /** What the code outside this model contributes to one run. */
  datatype Collaborators = Collaborators(
    envFilesActive: bool,        // FlagSet.envFilesActive after the runner's SetFlags
    envFiles: seq<string>,       // FlagSet.envFiles after the runner's SetFlags
    envFileVar: Option<string>,  // the env_file value fenv reads from the environment
    files: map<string, Env>,     // the env files that load, by name, as godotenv reads them
    envParseErr: Option<Error>,  // what fenv.EnvSet.ParseEnv returns
    argParseErr: Option<Error>,  // what flag.FlagSet.Parse returns
    registry: seq<EnvFlag>,      // fenv's flags, in visit order, after the last parse the run reaches
    execResult: Option<Error>,   // what Runner.Exec returns
    usageCalls: seq<UsageCall>)  // the Logger usage calls Runner.Exec makes, in order

  /** The settings `init` leaves: on the first call it fills in a missing flag set, env source and Logger, and ties the Logger to the service. */
  function InitSettings(c: Config, hasInit: bool): Config
  {
    if hasInit then c
    else c.(fs := if c.fs.Some? then c.fs else Some(CommandLine),
            envFunc := if c.envFunc.Some? then c.envFunc else Some(OSEnv),
            log := Some((if c.log.None? then Logger(None, false) else c.log.value).(bound := true)))
  }

  /** The usage reports `s.fs.Usage()` prints: plug's own when `Run` installed `usageFuncYml` under drone, none of plug's otherwise. */
  function UsageShown(asPlugin: bool, flags: seq<EnvFlag>, ue: UsageErrors, debug: bool): seq<seq<Row>>
  {
    if asPlugin then [Report(flags, ue, debug)] else []
  }

  /** The plug `Service`. `flags` is the view of its fenv EnvSet; `output` the lines written to its log. */
  class Service {
    var fs: Option<FlagSetRef>
    var envFunc: Option<EnvSource>
    var argsFunc: Option<nat>
    var log: Option<Logger>
    var continueOnError: bool
    var hasInit: bool
    var flags: seq<EnvFlag>
    var usageErrors: UsageErrors
    var debug: bool
    var asPlugin: bool
    var execErr: Option<Error>
    var output: seq<string>

    function Settings(): Config
      reads this
    {
      Config(fs, envFunc, argsFunc, log, continueOnError)
    }

    /** `&Service{}`. */
    constructor ()
      ensures Settings() == EmptyConfig && !hasInit
      ensures flags == [] && usageErrors == map[] && execErr == None && output == []
      ensures !debug && !asPlugin
    {
      fs, envFunc, argsFunc, log, continueOnError := None, None, None, None, false;
      hasInit, flags, usageErrors := false, [], map[];
      debug, asPlugin, execErr, output := false, false, None, [];
    }

    /** Runs one option on the service. */
    method Apply(o: ServiceOption)
      requires !o.NilOption?
      modifies this
      ensures Settings() == ApplyOption(old(Settings()), o)
      ensures hasInit == old(hasInit) && flags == old(flags) && usageErrors == old(usageErrors)
      ensures debug == old(debug) && asPlugin == old(asPlugin) && execErr == old(execErr) && output == old(output)
    {
      match o
      case SetFlagSet(h) => fs := Some(FlagSetId(h));
      case SetEnvFunc(h) => envFunc := Some(EnvFuncId(h));
      case SetArgsFunc(h) => argsFunc := Some(h);
      case SetLogger(l) =>
        if log.Some? {
          log := Some(log.value.(logger := Some(l)));
          return;
        }
        log := Some(Logger(Some(l), false));
      case ContinueOnError => continueOnError := true;
    }

    /**
     * `init`: on the first call only, sets up an empty usage-error map and a
     * fresh EnvSet, fills the flag set, env source and Logger when they are
     * missing, and ties the Logger to the service. Later calls change nothing.
     */
    method Init()
      modifies this
      ensures hasInit
      ensures usageErrors == (if old(hasInit) then old(usageErrors) else map[])
      ensures flags == (if old(hasInit) then old(flags) else [])
      ensures fs == (if old(hasInit) || old(fs).Some? then old(fs) else Some(CommandLine))
      ensures envFunc == (if old(hasInit) || old(envFunc).Some? then old(envFunc) else Some(OSEnv))
      ensures log == (if old(hasInit) then old(log)
                      else Some((if old(log).None? then Logger(None, false) else old(log).value).(bound := true)))
      ensures argsFunc == old(argsFunc) && continueOnError == old(continueOnError)
      ensures debug == old(debug) && asPlugin == old(asPlugin) && execErr == old(execErr) && output == old(output)
    {
      if hasInit {
        return;
      }
      hasInit := true;
      usageErrors := map[];
      if fs.None? {
        fs := Some(CommandLine);
      }
      flags := [];
      if envFunc.None? {
        envFunc := Some(OSEnv);
      }
      if log.None? {
        log := Some(Logger(None, false));
      }
      log := Some(log.value.(bound := true));
    }

    /** `Err`: nil when there is neither a run error nor a usage error, else both together. */
    function Err(): (r: Option<ExecError>)
      reads this
      ensures r.None? <==> execErr.None? && |usageErrors| == 0
      ensures r.Some? ==> r.value.err == execErr && r.value.usageErrors == usageErrors
    {
      if execErr.None? && |usageErrors| == 0 then None
      else Some(ExecError(execErr, usageErrors))
    }

    /**
     * `Run`, given the environment, the command line (the program name first) and
     * what the collaborators outside this model produce. Returns the outcome,
     * the environment after env-file loading, and the usage reports plug
     * printed, in order. The log lines of a run are not modelled.
     */
    method Run(argv: seq<string>, env0: Env, c: Collaborators) returns (outcome: RunOutcome, env: Env, reports: seq<seq<Row>>)
      modifies this
      ensures Settings() == InitSettings(old(Settings()), old(hasInit))
      ensures hasInit && flags == c.registry && output == old(output)
      ensures asPlugin == AsPlugin(env0) && debug == DebugEnabled(env0)
      ensures env == LoadedEnv(env0, c, argv)
      ensures EarlyStop(c, argv, asPlugin).Some? ==>
        && outcome == EarlyStop(c, argv, asPlugin).value && reports == []
        && execErr == old(execErr) && usageErrors == (if old(hasInit) then old(usageErrors) else map[])
      ensures EarlyStop(c, argv, asPlugin).None? ==>
        Tail(outcome, execErr, usageErrors, reports)
        == ExecTail(c, |argv| == 0, asPlugin, debug, continueOnError, if old(hasInit) then old(usageErrors) else map[], old(execErr))
    {
      var stop;
      stop, env := Prepare(argv, env0, c);
      if stop.Some? {
        return stop.value, env, [];
      }
      outcome, reports := ParseAndExec(c, |argv| == 0);
    }

    /** The part of `Run` before parsing: `init`, the runner's flags, the drone and debug switches, env-file loading. */
    method Prepare(argv: seq<string>, env0: Env, c: Collaborators) returns (stop: Option<RunOutcome>, env: Env)
      modifies this
      ensures Settings() == InitSettings(old(Settings()), old(hasInit))
      ensures hasInit && flags == c.registry && output == old(output)
      ensures asPlugin == AsPlugin(env0) && debug == DebugEnabled(env0)
      ensures env == LoadedEnv(env0, c, argv)
      ensures stop == EarlyStop(c, argv, asPlugin)
      ensures execErr == old(execErr) && usageErrors == (if old(hasInit) then old(usageErrors) else map[])
    {
      Init();
      flags := c.registry;
      asPlugin := Get(env0, "DRONE") == "true";
      debug := Get(env0, "PLUGIN_PLUGIN_DEBUG") != "";
      stop, env := LoadEnv(argv, env0, c);
      if stop.None? && asPlugin && |argv| == 0 {
        stop := Some(PanickedAt(PluginSetupStage));
      }
    }

    /**
     * The part of `Run` after env-file loading: env and argument parsing, the
     * debug-mode report, then the runner, whose usage calls are replayed in order.
     */
    method ParseAndExec(c: Collaborators, argsMissing: bool) returns (outcome: RunOutcome, reports: seq<seq<Row>>)
      requires flags == c.registry
      modifies this`execErr, this`usageErrors
      ensures Tail(outcome, execErr, usageErrors, reports)
        == ExecTail(c, argsMissing, asPlugin, debug, continueOnError, old(usageErrors), old(execErr))
    {
      reports := [];
      if c.envParseErr.Some? {
        execErr := c.envParseErr;
        reports := ShowUsage();
        return Failed(EnvParseStage, true, !continueOnError), reports;
      }
      if argsMissing {
        return PanickedAt(ArgParseStage), reports;
      }
      if c.argParseErr.Some? {
        execErr := c.argParseErr;
        reports := ShowUsage();
        return Failed(ArgParseStage, true, !continueOnError), reports;
      }
      if debug {
        var rows := UsageFuncYml(flags, usageErrors, debug);
        reports := [rows];
      }
      var played := PlayUsage(usageErrors, flags, debug, c.usageCalls);
      usageErrors := played.ue;
      if played.halt.Panicked? {
        return PanickedAt(ExecStage), reports;
      }
      if played.halt.Exited? {
        return Failed(ExecStage, false, true), reports;
      }
      execErr := c.execResult;
      var hasErrors := false;
      if c.execResult.Some? {
        if c.execResult.value == ErrUsageError {
          hasErrors := true;
        }
      } else {
        hasErrors := AnyParseError(flags);
      }
      if hasErrors {
        var shown := ShowUsage();
        reports := reports + shown;
        return Failed(ExecStage, true, !continueOnError), reports;
      }
      outcome := Completed;
    }

    /** `s.fs.Usage()`: plug's report when `Run` installed `usageFuncYml`, that is under drone. */
    method ShowUsage() returns (reports: seq<seq<Row>>)
      ensures reports == UsageShown(asPlugin, flags, usageErrors, debug)
    {
      reports := [];
      if asPlugin {
        var rows := UsageFuncYml(flags, usageErrors, debug);
        reports := [rows];
      }
    }
  }

  /** The env-file step of `Run`: the env files laid over the environment, or how the step stops the run. */
  method LoadEnv(argv: seq<string>, env0: Env, c: Collaborators) returns (stop: Option<RunOutcome>, env: Env)
    ensures env == LoadedEnv(env0, c, argv)
    ensures stop == EnvFileStop(c, argv)
  {
    env := env0;
    stop := None;
    if c.envFilesActive {
      if |argv| == 0 {
        return Some(PanickedAt(EnvFileStage)), env;
      }
      var r := ReadEnvFiles(env, c.envFiles, c.envFileVar, argv[1..], c.files);
      if r.Failure? {
        return Some(Failed(EnvFileStage, false, true)), env;
      }
      env := r.value;
    }
  }

  /** A trailing "-env_file" with no value stops the run while env files load. */
  predicate EnvFileFails(c: Collaborators, argv: seq<string>)
  {
    c.envFilesActive && |argv| >= 1 && FirstIndex(argv[1..], EnvFileArg) == |argv| - 2
  }

  /**
   * How a run ends before its parses, if it does. Without even a program name,
   * `s.args()[1:]` panics while env files load and `s.args()[0]` panics while
   * the flag set is set up for drone; a trailing "-env_file" is fatal.
   */
  function EarlyStop(c: Collaborators, argv: seq<string>, asPlugin: bool): Option<RunOutcome>
  {
    if EnvFileStop(c, argv).Some? then EnvFileStop(c, argv)
    else if asPlugin && |argv| == 0 then Some(PanickedAt(PluginSetupStage))
    else None
  }

  function EnvFileStop(c: Collaborators, argv: seq<string>): Option<RunOutcome>
  {
    if c.envFilesActive && |argv| == 0 then Some(PanickedAt(EnvFileStage))
    else if EnvFileFails(c, argv) then Some(Failed(EnvFileStage, false, true))
    else None
  }

  /** The environment the run parses: the given one with the env files laid over it, when they are active and load. */
  function LoadedEnv(env0: Env, c: Collaborators, argv: seq<string>): Env
  {
    if c.envFilesActive && |argv| >= 1 && !EnvFileFails(c, argv)
    then Merged(env0, EnvFileList(c.envFiles, c.envFileVar, argv[1..]), c.files)
    else env0
  }

  /**
   * The usage failure of a run: the runner returned `ErrUsageError`, or it
   * returned nil while some flag failed to parse. Usage messages alone do not count.
   */
  predicate UsageFailure(execResult: Option<Error>, registry: seq<EnvFlag>)
  {
    if execResult.Some? then execResult.value == ErrUsageError
    else exists i :: 0 <= i < |registry| && registry[i].err.Some?
  }

  /** What the part of a run after env-file loading leaves: its outcome, `execErr`, the usage errors and the reports printed. */
  datatype Tail = Tail(outcome: RunOutcome, execErr: Option<Error>, usageErrors: UsageErrors, reports: seq<seq<Row>>)

  /**
   * A run after env-file loading, from usage errors `ue` and stored error
   * `execErr`: an env parse error and an argument parse error each store the
   * error and call `Usage` (flag.FlagSet.Parse does so itself); debug mode
   * prints the report before the runner; the runner's usage calls are
   * recorded, and one that does not return ends the run; then `ErrUsageError`,
   * or nil with a flag that failed to parse, calls `Usage` again.
   */
  function ExecTail(c: Collaborators, argsMissing: bool, asPlugin: bool, debug: bool, continueOnError: bool,
                    ue: UsageErrors, execErr: Option<Error>): Tail
  {
    if c.envParseErr.Some? then
      Tail(Failed(EnvParseStage, true, !continueOnError), c.envParseErr, ue, UsageShown(asPlugin, c.registry, ue, debug))
    else if argsMissing then Tail(PanickedAt(ArgParseStage), execErr, ue, [])
    else if c.argParseErr.Some? then
      Tail(Failed(ArgParseStage, true, !continueOnError), c.argParseErr, ue, UsageShown(asPlugin, c.registry, ue, debug))
    else
      var debugReport := if debug then [Report(c.registry, ue, debug)] else [];
      var played := PlayUsage(ue, c.registry, debug, c.usageCalls);
      if played.halt.Panicked? then Tail(PanickedAt(ExecStage), execErr, played.ue, debugReport)
      else if played.halt.Exited? then Tail(Failed(ExecStage, false, true), execErr, played.ue, debugReport)
      else if UsageFailure(c.execResult, c.registry) then
        Tail(Failed(ExecStage, true, !continueOnError), c.execResult, played.ue,
             debugReport + UsageShown(asPlugin, c.registry, played.ue, debug))
      else Tail(Completed, c.execResult, played.ue, debugReport)
  }

  /**
   * Without a program name, a run whose env files are off and which does not
   * run under drone reaches the env parse; when that parse fails, the run
   * fails there and does not panic.
   */
  lemma EnvParseErrorBeforeMissingArgs(c: Collaborators, debug: bool, continueOnError: bool, ue: UsageErrors, execErr: Option<Error>)
    requires !c.envFilesActive && c.envParseErr.Some?
    ensures EarlyStop(c, [], false).None?
    ensures ExecTail(c, true, false, debug, continueOnError, ue, execErr).outcome == Failed(EnvParseStage, true, !continueOnError)
  {
  }

  /** Only `ErrUsageError` among runner errors leads to `Usage`; any other is stored and the run ends normally. */
  lemma OtherExecErrorCompletes(c: Collaborators, asPlugin: bool, debug: bool, continueOnError: bool, ue: UsageErrors, execErr: Option<Error>)
    requires c.envParseErr.None? && c.argParseErr.None?
    requires PlayUsage(ue, c.registry, debug, c.usageCalls).halt == Returned
    requires c.execResult.Some? && c.execResult.value != ErrUsageError
    ensures var t := ExecTail(c, false, asPlugin, debug, continueOnError, ue, execErr);
      t.outcome == Completed && t.execErr == c.execResult
  {
  }

  /** A run whose runner returns nil fails exactly when some flag failed to parse. */
  lemma NilExecFailsOnParseError(c: Collaborators, asPlugin: bool, debug: bool, continueOnError: bool, ue: UsageErrors, execErr: Option<Error>)
    requires c.envParseErr.None? && c.argParseErr.None? && c.execResult.None?
    requires PlayUsage(ue, c.registry, debug, c.usageCalls).halt == Returned
    ensures ExecTail(c, false, asPlugin, debug, continueOnError, ue, execErr).outcome.Failed?
      <==> exists i :: 0 <= i < |c.registry| && c.registry[i].err.Some?
  {
  }

  /** Whatever the runner does, no usage message recorded before the run's tail is lost. */
  lemma ExecTailGrows(c: Collaborators, argsMissing: bool, asPlugin: bool, debug: bool, continueOnError: bool, ue: UsageErrors, execErr: Option<Error>)
    ensures Grows(ue, ExecTail(c, argsMissing, asPlugin, debug, continueOnError, ue, execErr).usageErrors)
  {
    PlayUsageGrows(ue, c.registry, debug, c.usageCalls);
  }

  /**
   * Usage messages do not fail a run by themselves: a runner that records one
   * and returns nil, with every flag parsed, completes, yet leaves a non-empty
   * usage-error map, so `Err` is not nil.
   */
  lemma UsageMessagesReachErr(c: Collaborators, asPlugin: bool, debug: bool, continueOnError: bool, ue: UsageErrors, execErr: Option<Error>)
    requires c.envParseErr.None? && c.argParseErr.None? && c.execResult.None?
    requires forall i :: 0 <= i < |c.registry| ==> c.registry[i].err.None?
    requires |c.usageCalls| >= 1 && UsageEffect(ue, c.registry, debug, c.usageCalls[0]).halt == Returned
    requires PlayUsage(ue, c.registry, debug, c.usageCalls).halt == Returned
    ensures var t := ExecTail(c, false, asPlugin, debug, continueOnError, ue, execErr);
      t.outcome == Completed && t.execErr.None? && |t.usageErrors| >= 1
  {
    FirstCallRecorded(ue, c.registry, debug, c.usageCalls);
  }

  /** `NewService`: applies the options in order to a zero service; a nil option panics (null here). */
  method NewService(opts: seq<ServiceOption>) returns (s: Service?)
    ensures s == null <==> NilOption in opts
    ensures s != null ==> fresh(s) && s.Settings() == Configure(opts) && !s.hasInit
    ensures s != null ==> s.flags == [] && s.usageErrors == map[] && s.execErr == None && s.output == []
  {
    s := new Service();
    for i := 0 to |opts|
      invariant NilOption !in opts[..i]
      invariant fresh(s) && s.Settings() == Configure(opts[..i]) && !s.hasInit
      invariant s.flags == [] && s.usageErrors == map[] && s.execErr == None && s.output == []
    {
      assert opts[..i + 1][..i] == opts[..i];
      if opts[i].NilOption? {
        assert NilOption in opts;
        return null;
      }
      s.Apply(opts[i]);
    }
    assert opts[..|opts|] == opts;
  }
}
