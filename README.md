# plug: a Dafny model of the drone plugin service core

This project models the `plug` package of drone-plugins-go, a Go library for
writing drone CI plugins. A plugin is a `Runner` with two methods.
`SetFlags` registers command-line flags on a plug `FlagSet`. `Exec` does the
plugin's work. The package's `Service` runs the runner:

1. It configures itself from `ServiceOption`s (`NewService`).
2. It reads the environment and decides whether it runs under drone
   (`DRONE=true`) and whether debug mode is on (`PLUGIN_PLUGIN_DEBUG`).
3. It can load env files named by the `-env_file` flag or its environment
   variable. Keys already in the environment are never overwritten.
4. Flags are bound to environment variables through the fenv library.
5. It parses the environment, then the command line, then runs the plugin.
6. It decides how the run ends. This depends on the error `Exec` returns
   (`ErrUsageError` asks for the usage report) and on the flags that failed
   to parse.

The plugin's `Logger` records usage messages against individual flags.
`Service.Err` reports them together with the run error. The usage report
(`usageFuncYml`) sorts the flags into four groups in a fixed order: unset,
default, set, errors. The test helper `plugtest.PT` builds the environment
a service reads, then runs a service on it and keeps its `Err`.

A run takes what code outside the package contributes as an input
(`Services.Collaborators`): the fenv and flag parse results, the flags fenv
registered, the env files on disk, and what the runner's `Exec` does. For
`Exec`, that is the value it returns and the usage calls it makes on the
Logger, in order. The run replays those calls with the same bookkeeping the
Logger's `Usage` methods follow, and it returns the usage reports it prints.

Modules, one per source file:

- `Wrappers` holds `Option` and `Result`.
- `Text` holds ASCII `strings.ToUpper`/`ToLower`, `Split`/`Join` on a
  one-character separator, and `Sprint`/`Sprintln`.
- `EnvFlags` holds the per-flag records of fenv, which this model takes as
  inputs.
- `Errors` models `plug/error.go`.
- `Flags` models `plug/flag.go`.
- `UsageReport` models `plug/usage.go`.
- `Services` models `plug/service.go`.
- `UsageLog` and `Logging` model `plug/log.go`. `UsageLog` holds the
  usage-error bookkeeping as values, which `Services` also uses. `Logging`
  holds the Logger's methods.
- `PlugTest` models `plug/plugtest/env.go` and the `Run` of
  `plug/plugtest/plugtest.go`.

How the model represents the code:

- State the Go code mutates in place becomes a class with `modifies` frames:
  `Service`, `FlagSet`, `StringSliceFlag` and `PT`.
- The loops of the source become methods with loop invariants. Each such
  method is proved equal to a function, or, where Go's map order leaves the
  result open (`PlugTest.PT.PutAll`) or the result is a yes/no answer
  (`Services.AnyParseError`), proved to satisfy a relation. The properties of
  those functions and relations are proved as lemmas.
- Go map iteration order is unspecified. Loops over maps pick the next key
  with `:|`, so every proof holds for every order.

Behaviour of the code worth noting:

- `strings.Split("", ",")` gives one empty item, not an empty list. So an
  empty comma list does not survive `Set(String())`.
- Usage messages recorded through the Logger do not make `Run` fail. A run
  whose runner records one and returns nil completes, but `Err` is not nil
  (`Services.UsageMessagesReachErr`, `PlugTest.OneUsageMessageFailsTest`).
- In debug mode, each `Usage` call records its message twice. `fmtFlagUsage`
  appends it, and then the caller appends it again.
- A command line without even a program name panics, unless the environment
  fails to parse first. The panic happens while env files load, while the flag
  set is set up for drone, or at argument parsing, whichever comes first. A
  failed env parse comes before argument parsing, so when env files are off and
  the service does not run under drone, the run fails there instead.

## Model

| member | source | states |
|---|---|---|
| Text.Split | plug/flag.go:259 | the pieces between commas: there is at least one, and none holds the separator |
| Text.JoinSplit | plug/flag.go:254-261 | joining the pieces of any string with the separator gives the string back |
| Text.SplitJoin | plug/flag.go:254-261 | splitting a join gives back any non-empty list whose items hold no separator |
| Text.SplitLength | plug/flag.go:259 | a string splits into one more piece than it has separators |
| Text.SplitAfterPiece | plug/flag.go:259 | a separator-free piece followed by the separator contributes exactly that piece |
| Text.SplitNoSep | plug/flag.go:259 | a string without separators is a single piece |
| Text.JoinPrepend | plug/flag.go:255 | extending the first item of a list extends its join by the same text |
| Text.ToUpper | plug/flag.go:236 | each character is the upper-case form of the original, and no lower-case letter is left |
| Text.ToUpperFixed | plug/flag.go:236 | a string is its own upper-case form exactly when it has no lower-case letter, so upper-casing twice changes nothing more |
| Text.ToLower | plug/usage.go:20 | each character is the lower-case form of the original, and no upper-case letter is left |
| Text.ToLowerFixed | plug/usage.go:20 | a string is its own lower-case form exactly when it has no upper-case letter, so lower-casing twice changes nothing more |
| Text.ToUpperAppend | plug/plugtest/env.go:15 | upper-casing distributes over concatenation |
| Text.ToLowerAppend | plug/usage.go:20 | lower-casing distributes over concatenation |
| Text.TrimPrefix | plug/usage.go:21-22 | the result is a suffix of the input; when the prefix is present, the prefix followed by the result gives the input back; otherwise the input is unchanged |
| Text.ReplaceAll | plug/flag.go:234-235 | the result has the same length and no occurrence of the replaced character left, when the two characters differ; a string without that character is unchanged |
| Text.Sprintln | plug/log.go:51-56 | a Println-style message always ends in a newline |
| Errors.ExecErrorText | plug/error.go:29-44 | any usage error gives "usage errors"; otherwise the run error's own text; with neither, "no errors" |
| Errors.UsageErrorConstant | plug/error.go:18-21 | ErrUsageError has the text "usage error" and exit code 1 |
| Errors.Error.Text | plug/error.go:14-16 | the text of an ExitError is its Text field; any other error keeps its own message |
| Flags.DroneEnvName | plug/flag.go:232-236 | the env name is "DRONE_" followed by the flag name, with '.' and '-' as '_', upper-cased; it holds no '.', '-' or lower-case letter |
| Flags.DroneEnvNameIs | plug/flag.go:232-236 | the env name of any flag is "DRONE_" followed by its name converted character by character |
| Flags.DroneDefault | plug/flag.go:238-247 | string, bool and int64 flags get the defaults "", false and -1; any other type fails (the Go code panics) |
| Flags.StringSliceFlag.String | plug/flag.go:254-256 | the items joined with commas; splitting that text gives back a non-empty list whose items hold no comma |
| Flags.StringSliceFlag.Set | plug/flag.go:258-261 | the list becomes the comma pieces of the value, String() then gives the value back, and Set never fails |
| Flags.StringSliceRoundTrip | plug/flag.go:254-261 | a list survives Set(String()) if and only if it is non-empty and no item holds a comma |
| Flags.StringSliceEmptyListNotRestored | plug/flag.go:254-261 | the empty list prints as "", which parses back as one empty item |
| Flags.StringSliceSetExample | plug/flag.go:258-261 | "one,two,three" parses as the three items |
| Flags.FlagSet.Env | plug/flag.go:26-28 | adds the flag's env names to the bindings, and nothing else |
| Flags.FlagSet.StringSliceVar | plug/flag.go:30-32 | defines one comma-list flag whose default is the given list |
| Flags.FlagSet.DroneFlag | plug/flag.go:227-249 | for a supported type: one flag with the type's default, a usage text naming the derived env name, and one binding to that env name. Another type changes nothing and fails |
| Flags.FlagSet.EnvFiles | plug/flag.go:40-48 | turns on env-file loading; a non-empty list replaces the file list; the env_file flag is defined on the first call only |
| UsageReport.FmtDroneYMLName | plug/usage.go:19-26 | the displayed name has no upper-case letter and is a suffix of the lower-cased env name |
| UsageReport.FmtDroneYMLNameStripsBoth | plug/usage.go:19-26 | "plugin_" is stripped before "drone_", so PLUGIN_DRONE_x shows as x |
| UsageReport.FmtDroneYMLNameKeepsPlugin | plug/usage.go:19-26 | each prefix is stripped at most once, in a fixed order, so DRONE_PLUGIN_x shows as plugin_x |
| UsageReport.BucketOf | plug/usage.go:108-122 | a flag is an error if and only if it failed to parse or has usage messages; otherwise set if and only if it is set, default if and only if it is unset with a non-empty value, else unset |
| UsageReport.Filter | plug/usage.go:108-122 | every flag the visitor puts in a group belongs to that group |
| UsageReport.Partition | plug/usage.go:101-122 | the visitor's four lists are exactly the flags of each group, in visit order |
| UsageReport.FilterCount | plug/usage.go:108-122 | a group holds every copy of a flag that belongs to it and none of any other |
| UsageReport.ReportOrderIsPermutation | plug/usage.go:101-122 | every flag lands in exactly one group: the four lists together are a permutation of the flags |
| UsageReport.ReportOrderSorted | plug/usage.go:129-153 | the report lists the unset flags, then the defaults, then the set flags, then the errors |
| UsageReport.NamesIn | plug/usage.go:52-62 | every name collected for a group belongs to that group |
| UsageReport.GroupNames | plug/usage.go:51-62 | the option names and raw env names are the PLUGIN_ and the other non-DRONE_ names, in order, each formatted |
| UsageReport.NameGroupsCover | plug/usage.go:52-62 | every env name is hidden, an option name, or a raw env name |
| UsageReport.NamesShownIffNotAllDrone | plug/usage.go:63-65 | a flag is left out of the report if and only if all its env names start with DRONE_ |
| UsageReport.SetByOf | plug/usage.go:80-84 | "set by" names the matched env name if and only if fenv set the flag; it names the flag if and only if the flag was set only on the command line |
| UsageReport.UsageOf | plug/usage.go:49-100 | a flag has no entry if and only if all its env names start with DRONE_; the flag's usage text appears if and only if it has option names |
| UsageReport.WriteUsage | plug/usage.go:49-100 | a flag is rendered unless all its names are hidden. The usage text is shown only with the option names; the env value only in debug mode and when non-empty; the value only when non-empty; usage messages only when the flag has some |
| UsageReport.EntriesAppend | plug/usage.go:129-153 | rendering a list of flags distributes over concatenation |
| UsageReport.SectionWithoutHeader | plug/usage.go:124-128 | outside debug mode a group has no header row |
| UsageReport.ReportWithoutHeaders | plug/usage.go:124-153 | outside debug mode the report is the rows of all flags in report order |
| UsageReport.WriteEntries | plug/usage.go:131-133 | writes the rows of the group's flags, in order, skipping hidden ones |
| UsageReport.WriteSection | plug/usage.go:129-153 | an empty group writes nothing; otherwise the debug header, then every shown flag's rows, in order |
| UsageReport.UsageFuncYml | plug/usage.go:28-160 | the rows written are the report: the non-empty groups in order UNSET, DEFAULT, SET, ERRORS |
| Services.ApplyOptionIdempotent | plug/service.go:46-95 | applying any option twice is the same as applying it once |
| Services.SetLoggerKeepsLogger | plug/service.go:80-84 | SetLogger on an existing Logger only swaps its log.Logger and keeps its tie to the service |
| Services.ConfigureLastFlagSetWins | plug/service.go:98-107 | of several SetFlagSet options the last one decides |
| Services.NewService | plug/service.go:98-107 | a nil option yields no service (Go panics); otherwise a fresh, uninitialised service configured by the options in order |
| Services.Service.Apply | plug/service.go:46-95 | runs one option: the configuration changes as that option says, and nothing else changes |
| Services.Service.Init | plug/service.go:216-234 | on the first call only: an empty usage-error map and EnvSet; CommandLine, OSEnv and a new Logger where missing; the Logger tied to the service. A second call changes nothing |
| Services.Service.Err | plug/service.go:305-313 | nil if and only if there is neither a run error nor a usage error; otherwise both, unchanged |
| Services.FirstIndex | plug/service.go:253-265 | the position of the first "-env_file", or the length if there is none |
| Services.ScanEnvFileArgs | plug/service.go:251-265 | picks "-env_file" and the argument right after it; only the flag, if it comes last; nothing, if it is absent |
| Services.MergeFile | plug/service.go:280-287 | one file adds its keys and never changes a key already present |
| Services.MergeEnvFiles | plug/service.go:271-289 | the environment after loading the files in order, skipping files that fail to load |
| Services.MergedKeepsExisting | plug/service.go:280-287 | loading env files never changes a key the environment already had |
| Services.MergedKeys | plug/service.go:271-289 | afterwards the environment holds its own keys and every key of every loaded file, and no others |
| Services.MergedEarliestWins | plug/service.go:271-289 | a new key takes its value from the earliest file in the list that defines it |
| Services.NotLoadedBefore | plug/service.go:271-289 | a key no loaded file defines stays absent |
| Services.ReadEnvFiles | plug/service.go:236-291 | fails if and only if "-env_file" comes last without a value. Otherwise the list after "-env_file" wins over the env var, which wins over the defaults, and that list is merged |
| Services.AnyParseError | plug/service.go:200-204 | true if and only if some flag failed to parse |
| Services.Service.Run | plug/service.go:110-213 | the run initialises the service and reads DRONE and PLUGIN_PLUGIN_DEBUG from the environment before env files load. A missing program name panics and a trailing "-env_file" exits, both before parsing. Otherwise outcome, stored error, usage errors and printed reports are those ExecTail gives for the initial usage errors |
| Services.Service.Prepare | plug/service.go:110-151 | init runs, the configuration becomes what init leaves, the runner's flags are registered, DRONE and PLUGIN_PLUGIN_DEBUG are read; the run stops early exactly as EarlyStop says, with the stored error and usage errors untouched |
| Services.LoadEnv | plug/service.go:144-146 | with env files active: no command line panics, a trailing "-env_file" stops, otherwise the files are merged into the environment |
| Services.Service.ParseAndExec | plug/service.go:153-212 | an env parse error and an argument parse error each store the error and call Usage, and exit unless continueOnError; debug mode prints the report before the runner; the runner's usage calls are recorded in order, and one that exits or panics ends the run; then ErrUsageError, or nil with a flag parse error, calls Usage again |
| Services.Service.ShowUsage | plug/service.go:148-155 | s.fs.Usage() prints plug's report of the current flags and usage errors exactly when the service runs under drone |
| Services.EnvParseErrorBeforeMissingArgs | plug/service.go:144-160 | with env files off and not under drone, a missing program name does not stop the run before the env parse, and a failed env parse ends the run there instead of the panic at argument parsing |
| Services.OtherExecErrorCompletes | plug/service.go:190-212 | a runner error other than ErrUsageError is stored, and the run ends normally |
| Services.NilExecFailsOnParseError | plug/service.go:199-212 | when the runner returns nil after usage calls that all return, the run fails if and only if some flag failed to parse |
| Services.ExecTailGrows | plug/service.go:185-189 | whatever the runner does, no usage message recorded before it ran is lost |
| Services.UsageMessagesReachErr | plug/service.go:187-213 | a runner that records a usage message and returns nil, with every flag parsed, completes the run, yet leaves a non-empty usage-error map, so Err is not nil |
| UsageLog.LastIndexOf | plug/log.go:170-177 | the index found holds the flag, and no later flag is bound to the same storage; -1 means no flag is bound to it |
| Logging.FindEnvFlag | plug/log.go:164-180 | a non-pointer gives "not a pointer: …"; otherwise the last flag bound to the same storage, or nil |
| UsageLog.RecordUsage | plug/log.go:110-112 | the messages are appended to the flag's list, and every other flag's list is unchanged |
| UsageLog.UsageEffect | plug/log.go:101-145 | a call returns exactly when it names a pointer a flag is bound to; a non-pointer exits with 1 outside debug mode; whenever it does not return, nothing is recorded; the map only grows |
| UsageLog.PlayUsageGrows | plug/log.go:101-145 | however a series of usage calls ends, no message recorded before it is lost |
| UsageLog.FirstCallRecorded | plug/log.go:110-112 | when the first call of a series returns, its flag holds a message afterwards, so the map is not empty |
| UsageLog.RecordOneAppendsAtEnd | plug/log.go:110-112 | a new message goes last, after the flag's earlier messages |
| Logging.Output | plug/log.go:20-25 | writes the line to the log |
| Logging.DebugOutput | plug/log.go:31-56 | writes only in debug mode |
| Logging.Debug | plug/log.go:31-36 | only in debug mode, writes the Sprint of the arguments |
| Logging.Debugf | plug/log.go:40-47 | only in debug mode, writes the formatted text |
| Logging.Debugln | plug/log.go:51-56 | only in debug mode, writes the Sprintln of the arguments |
| Logging.Print | plug/log.go:60-62 | always writes the Sprint of the arguments |
| Logging.Printf | plug/log.go:66-68 | always writes the formatted text |
| Logging.Println | plug/log.go:72-74 | always writes the Sprintln of the arguments |
| Logging.Fatal | plug/log.go:77-92 | writes the line, then exits with code 1 |
| Logging.ProgrammingFatal | plug/log.go:95-98 | writes the line prefixed "programming error: ", then exits with code 1 |
| Logging.OptionErrorLine | plug/log.go:155-161 | the debug line starts with "plugin option '" and ends with "' error: " and the message |
| Logging.FmtFlagUsage | plug/log.go:147-162 | records the message for the flag found and returns "plugin option '<name>' error: <message>"; panics, recording nothing, when no flag is found, after writing the "not a pointer" debug line for a non-pointer in debug mode |
| Logging.AddUsage | plug/log.go:101-145 | records the message against the flag as UsageEffect says: twice in debug mode, once otherwise. A non-pointer exits with 1 outside debug mode, after writing "not a pointer: …"; in debug mode it panics after the Debugln of that error; a missing flag panics without writing; none of these records anything. In debug mode the two debug lines are written. The map only grows |
| Logging.Usage | plug/log.go:101-114 | for the Sprint of the arguments: the same recording, exit, panic, lines written and growth AddUsage states |
| Logging.Usagef | plug/log.go:117-130 | for the formatted text: the same recording, exit, panic, lines written and growth AddUsage states |
| Logging.Usageln | plug/log.go:133-145 | for the Sprintln of the arguments: the same recording, exit, panic, lines written and growth AddUsage states |
| PlugTest.PutResultUnique | plug/plugtest/env.go:14-16 | an input key that shares its upper-cased key with no other input key has its value stored there |
| PlugTest.PT.constructor | plug/plugtest/plugtest.go:23-40 | a new helper's environment is exactly DRONE=true, so the service runs as a plugin |
| PlugTest.PT.EnvFunc | plug/plugtest/env.go:27-29 | the service reads the very environment the setters wrote |
| PlugTest.PT.PutAll | plug/plugtest/env.go:14-16 | each produced key holds the value of an input key mapped to it; every other key keeps its value; no other key appears |
| PlugTest.PutStep | plug/plugtest/env.go:14-16 | each single write of the loop keeps the setter's result relation for the keys written so far |
| PlugTest.PT.SetDebug | plug/plugtest/env.go:5-9 | sets PLUGIN_PLUGIN_DEBUG=true, which the service reads as debug mode; refused, changing nothing, once the test has run |
| PlugTest.PT.SetPluginVars | plug/plugtest/env.go:11-17 | stores each value under PLUGIN_ plus the upper-cased key; refused, changing nothing, once the test has run |
| PlugTest.PT.SetVars | plug/plugtest/env.go:19-25 | stores each value under its upper-cased key; refused, changing nothing, once the test has run |
| PlugTest.PT.Run | plug/plugtest/plugtest.go:42-59 | a second run is refused and changes nothing. The first runs a service on the helper's environment with only the program name as argument and returns its outcome; the environment then holds the loaded env files. The kept error is RunErr, unless the service panics or exits, which leaves it as it was |
| PlugTest.HelperHaltsIffUsageCallHalts | plug/plugtest/plugtest.go:46-57 | the helper's service, which continues on errors, panics or exits exactly when both parses succeed and one of the runner's usage calls does not return |
| PlugTest.RunErr | plug/plugtest/plugtest.go:49-57 | the kept error holds the usage errors of a fresh service's run that continues on errors |
| PlugTest.OneUsageMessageFailsTest | plug/plugtest/plugtest.go:56-58 | a runner that records one usage message for a flag and returns nil completes, yet the helper's error is "usage errors" with exactly that message under the flag's name |
| PlugTest.PluginKeysPrefixed | plug/plugtest/env.go:15 | every key SetPluginVars writes starts with PLUGIN_ |
| PlugTest.DebugKeyIsPluginVar | plug/plugtest/env.go:8 | SetDebug's key is the key SetPluginVars writes for plugin_debug |

## Left out

- The fenv library sits outside this model. Its env lookup, alias precedence and value parsing are not modelled. Its per-flag results (`EnvFlag` records) and its parse errors are inputs, as are the Go flag package's parse results.
- Whether `flag.FlagSet.Parse` exits on its own is the flag package's error handling, so it is not modelled. A flag set in ExitOnError mode exits with code 2 on a bad argument.
- Reflection is replaced by a number per flag. `findEnvFlag` compares pointers; the model compares these handles. `Flags.FlagSet.Env` binds env names to a flag by its name; Go passes the bound variable's pointer, and fenv finds the flag from it.
- `stringMapFlag` and `StringMapVar` (plug/flag.go:34-36, 263-281) are left out. They are thin wrappers over the JSON encoder.
- The Repo/Commit/Build flag catalogue (plug/flag.go:50-225) is left out. It only calls `droneFlag` with fixed names, and `Flags.FlagSet.DroneFlag` covers that.
- `envUsage` (plug/usage.go:11-17) is an unused debug printer, so it is left out.
- The usage report is modelled as rows. The tablewriter layout and the final `Println` of the rendered table are not.
- Godotenv file reading is modelled as a map from file name to contents. A file missing from the map fails to load.
- In `readEnvfiles`, the fatal path of `es.ParseEnv` is not modelled. That parse only sets the comma-list flag, whose `Set` never fails.
- `Services.Service.Run`: writes nothing to the log in the model. Go writes debug lines, the `Println` of an argument parse error, the `Fatal` line of the env-file error, and the lines of the runner's own Logger calls.
- `Services.Service.Run`: the log-flag setup and the switch of the flag set to ContinueOnError under drone are not modelled. Printing a usage report is modelled as returning its rows.
- `Services.Service.Run`: the runner's `Exec` is an input. Only its usage calls and its result are modelled; its other Logger calls and its own work are not.
- `Services.Service.ShowUsage`: when the service does not run under drone, `s.fs.Usage()` is the flag set's own usage function. The model records that it is called (`usageCalled`) but not what it prints.
- `os.Exit`, panics and `testing.T.Fatal` become outcome values (`RunOutcome`, `Halt`, a false `ok`). Execution stopping is not modelled.
- A nil `FlagSet`, env function, args function or `log.Logger` passed to an option constructor is not modelled. The Go code calls `log.Fatal` there.
- Formatting verbs of `Printf`-style calls are not modelled: those members take the text already formatted. `fmt.Sprint` of non-string operands is not modelled either.
- Case mapping is ASCII only; Unicode case rules are not modelled.
- Loggers are not shared between services. `Logging` methods take the service their Logger points to, and all log output is one list of lines.
- `PlugTest.PT.EnvFunc` returns the map as a value. Go returns the map itself, so the helper and the service share it. `PlugTest.PT.Run` passes the helper's environment to the service and stores back the environment the service leaves, which is the effect that sharing has in a run.
- `PlugTest.PT.Run`: the log buffer, the `Output` accessor and the `testing.T` wiring are not modelled. The handles given to the options stand for the helper's own flag set, env function, args function and logger.
- The rest of the test helper in plug/plugtest/plugtest.go, assert.go and util.go is not modelled; it is wiring to `testing.T`.
- `Flags.FlagSet.EnvFiles` and `Flags.FlagSet.StringSliceVar` record the list a flag is bound to as a default value. In Go the flag keeps pointing at the list, so a later `EnvFiles` call is seen through the flag; the model does not capture that.
