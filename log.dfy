/**
 * The usage-error bookkeeping of plug/log.go as values: how one `Usage`,
 * `Usagef` or `Usageln` call changes the service's usage-error map and how it
 * ends. The `Logger` methods below follow it, and a run replays the runner's
 * calls with it.
 */
module UsageLog {
  import opened EnvFlags

  /** The value a caller passes to identify a flag: a pointer (by address) or anything else. */
  datatype Ref = Pointer(addr: nat) | NotPointer(shown: string)

  /** How a logging call ends: it returns, calls `os.Exit`, or panics on a nil flag. */
  datatype Halt = Returned | Exited(code: int) | Panicked

  /** The index of the last flag bound to `addr`, or -1. */
  function LastIndexOf(flags: seq<EnvFlag>, addr: nat): (r: int)
    ensures -1 <= r < |flags|
    ensures r >= 0 ==> flags[r].handle == addr
    ensures forall j :: r < j < |flags| ==> flags[j].handle != addr
  {
    if flags == [] then -1
    else if flags[|flags| - 1].handle == addr then |flags| - 1
    else LastIndexOf(flags[..|flags| - 1], addr)
  }

  /** Nothing is taken away: every list is kept as a prefix of its new version. */
  predicate Grows(before: UsageErrors, after: UsageErrors)
  {
    forall k :: k in before ==> k in after && before[k] <= after[k]
  }

  /** The usage-error map with `msgs` appended to the list of `flagName`. */
  function RecordUsage(ue: UsageErrors, flagName: string, msgs: seq<string>): (r: UsageErrors)
    ensures Grows(ue, r)
    ensures flagName in r && r[flagName] == Messages(ue, flagName) + msgs
    ensures forall k :: k != flagName ==> (k in r <==> k in ue) && (k in ue ==> r[k] == ue[k])
  {
    ue[flagName := Messages(ue, flagName) + msgs]
  }

  /** Recording a message twice is recording the pair once. */
  lemma RecordTwice(ue: UsageErrors, flagName: string, msg: string)
    ensures RecordUsage(RecordUsage(ue, flagName, [msg]), flagName, [msg]) == RecordUsage(ue, flagName, [msg, msg])
  {
    assert Messages(ue, flagName) + [msg] + [msg] == Messages(ue, flagName) + [msg, msg];
  }

  /** After any series of calls, each flag's messages only grow: `Grows` is transitive. */
  lemma GrowsTransitive(a: UsageErrors, b: UsageErrors, c: UsageErrors)
    requires Grows(a, b) && Grows(b, c)
    ensures Grows(a, c)
  {
  }

  /** A message recorded outside debug mode ends up last in its flag's list, after all earlier ones. */
  lemma RecordOneAppendsAtEnd(ue: UsageErrors, flagName: string, msg: string)
    ensures var r := RecordUsage(ue, flagName, [msg]);
      |r[flagName]| == |Messages(ue, flagName)| + 1 && r[flagName][|r[flagName]| - 1] == msg
      && r[flagName][..|r[flagName]| - 1] == Messages(ue, flagName)
  {
  }

  /** One usage call a runner makes: the flag it names and the formatted message. */
  datatype UsageCall = UsageCall(ref: Ref, text: string)

  /** The usage-error map after some calls, and how the last of them ended. */
  datatype Recorded = Recorded(ue: UsageErrors, halt: Halt)

  /**
   * One usage call. A non-pointer exits with 1 (panics in debug mode, where
   * the flag is dereferenced first); a pointer no flag is bound to panics;
   * otherwise the message is appended to the flag's list, twice in debug mode.
   */
  function UsageEffect(ue: UsageErrors, flags: seq<EnvFlag>, debug: bool, call: UsageCall): (r: Recorded)
    ensures r.halt == Returned <==> call.ref.Pointer? && LastIndexOf(flags, call.ref.addr) >= 0
    ensures r.halt.Exited? <==> !debug && call.ref.NotPointer?
    ensures r.halt.Exited? ==> r.halt.code == 1
    ensures r.halt != Returned ==> r.ue == ue
    ensures Grows(ue, r.ue)
  {
    if call.ref.NotPointer? then Recorded(ue, if debug then Panicked else Exited(1))
    else
      var i := LastIndexOf(flags, call.ref.addr);
      if i < 0 then Recorded(ue, Panicked)
      else Recorded(RecordUsage(ue, flags[i].flagName, if debug then [call.text, call.text] else [call.text]), Returned)
  }

  /** A series of usage calls, in order; the first that does not return ends the series. */
  function PlayUsage(ue: UsageErrors, flags: seq<EnvFlag>, debug: bool, calls: seq<UsageCall>): Recorded
    decreases |calls|
  {
    if calls == [] then Recorded(ue, Returned)
    else
      var r := UsageEffect(ue, flags, debug, calls[0]);
      if r.halt != Returned then r else PlayUsage(r.ue, flags, debug, calls[1..])
  }

  /** However a series of usage calls ends, no message recorded before it is lost. */
  lemma {:induction false} PlayUsageGrows(ue: UsageErrors, flags: seq<EnvFlag>, debug: bool, calls: seq<UsageCall>)
    ensures Grows(ue, PlayUsage(ue, flags, debug, calls).ue)
    decreases |calls|
  {
    if calls != [] {
      var r := UsageEffect(ue, flags, debug, calls[0]);
      if r.halt == Returned {
        PlayUsageGrows(r.ue, flags, debug, calls[1..]);
        GrowsTransitive(ue, r.ue, PlayUsage(r.ue, flags, debug, calls[1..]).ue);
      }
    }
  }

  /** When the first call of a series returns, its flag has a message afterwards, so the map is not empty. */
  lemma FirstCallRecorded(ue: UsageErrors, flags: seq<EnvFlag>, debug: bool, calls: seq<UsageCall>)
    requires |calls| >= 1 && UsageEffect(ue, flags, debug, calls[0]).halt == Returned
    ensures var name := flags[LastIndexOf(flags, calls[0].ref.addr)].flagName;
      var after := PlayUsage(ue, flags, debug, calls).ue;
      name in after && |after[name]| >= 1 && |after| >= 1
  {
    var name := flags[LastIndexOf(flags, calls[0].ref.addr)].flagName;
    var r := UsageEffect(ue, flags, debug, calls[0]);
    PlayUsageGrows(r.ue, flags, debug, calls[1..]);
    var after := PlayUsage(ue, flags, debug, calls).ue;
    assert name in after.Keys;
  }
}

/**
 * plug/log.go: the plugin `Logger`. Its methods reach the service through the
 * Logger's back pointer, so here they take that `Service` as a parameter.
 */
module Logging {
  import opened Wrappers
  import opened Text
  import opened EnvFlags
  import opened Services
  import opened UsageLog
  import UsageReport

  /** What `findEnvFlag` returns: the error for a non-pointer, the flag found, or nil. */
  datatype Lookup = NotAPointer(message: string) | Found(flag: EnvFlag) | NotFound

  /**
   * `findEnvFlag`: a non-pointer is an error; otherwise the visit keeps the last
   * flag bound to the same storage, or nil if none is.
   */
  method FindEnvFlag(flags: seq<EnvFlag>, ref: Ref) returns (res: Lookup)
    ensures ref.NotPointer? ==> res == NotAPointer("not a pointer: " + ref.shown)
    ensures ref.Pointer? && LastIndexOf(flags, ref.addr) < 0 ==> res == NotFound
    ensures ref.Pointer? && LastIndexOf(flags, ref.addr) >= 0 ==> res == Found(flags[LastIndexOf(flags, ref.addr)])
  {
    if ref.NotPointer? {
      return NotAPointer("not a pointer: " + ref.shown);
    }
    var flg: Option<EnvFlag> := None;
    ghost var at := -1;
    for i := 0 to |flags|
      invariant at == LastIndexOf(flags[..i], ref.addr)
      invariant flg == if at < 0 then None else Some(flags[at])
    {
      assert flags[..i + 1][..i] == flags[..i];
      if flags[i].handle == ref.addr {
        flg := Some(flags[i]);
        at := i;
      }
    }
    assert flags[..|flags|] == flags;
    res := if flg.None? then NotFound else Found(flg.value);
  }

  /** `Output`: one line to the Logger's `log.Logger`, or to the standard logger. */
  method Output(s: Service, line: string)
    modifies s`output
    ensures s.output == old(s.output) + [line]
  {
    s.output := s.output + [line];
  }

  /** `Debug`, `Debugf` and `Debugln` write only in debug mode; `line` is the formatted text. */
  method DebugOutput(s: Service, line: string)
    modifies s`output
    ensures s.output == if s.debug then old(s.output) + [line] else old(s.output)
  {
    if !s.debug {
      return;
    }
    Output(s, line);
  }

  method Debug(s: Service, v: seq<string>)
    modifies s`output
    ensures s.output == if s.debug then old(s.output) + [Sprint(v)] else old(s.output)
  {
    DebugOutput(s, Sprint(v));
  }

  /** `Debugf`, with the format already applied to its arguments. */
  method Debugf(s: Service, formatted: string)
    modifies s`output
    ensures s.output == if s.debug then old(s.output) + [formatted] else old(s.output)
  {
    DebugOutput(s, formatted);
  }

  method Debugln(s: Service, v: seq<string>)
    modifies s`output
    ensures s.output == if s.debug then old(s.output) + [Sprintln(v)] else old(s.output)
  {
    DebugOutput(s, Sprintln(v));
  }

  method Print(s: Service, v: seq<string>)
    modifies s`output
    ensures s.output == old(s.output) + [Sprint(v)]
  {
    Output(s, Sprint(v));
  }

  method Println(s: Service, v: seq<string>)
    modifies s`output
    ensures s.output == old(s.output) + [Sprintln(v)]
  {
    Output(s, Sprintln(v));
  }

  /** `Printf`, with the format already applied to its arguments. */
  method Printf(s: Service, formatted: string)
    modifies s`output
    ensures s.output == old(s.output) + [formatted]
  {
    Output(s, formatted);
  }

  /** `programmingFatalf`: the line marked as a programming error, then `os.Exit(1)`. */
  method ProgrammingFatal(s: Service, formatted: string) returns (halt: Halt)
    modifies s`output
    ensures s.output == old(s.output) + ["programming error: " + formatted] && halt == Exited(1)
  {
    Output(s, "programming error: " + formatted);
    halt := Exited(1);
  }

  /** `Fatal`, `Fatalf` and `Fatalln`: the line, then `os.Exit(1)`. */
  method Fatal(s: Service, line: string) returns (halt: Halt)
    modifies s`output
    ensures s.output == old(s.output) + [line] && halt == Exited(1)
  {
    Output(s, line);
    halt := Exited(1);
  }

  /** The line `fmtFlagUsage` puts together for the debug log. */
  function OptionErrorLine(f: EnvFlag, rest: string): (r: string)
    ensures "plugin option '" <= r
    ensures IsSuffix("' error: " + rest, r)
  {
    var fmtname := if f.name != "" then UsageReport.FmtDroneYMLName(f.name) else f.flagName;
    "plugin option '" + fmtname + "' error: " + rest
  }

  /**
   * What a usage call writes before it stops on a failed lookup: the
   * "not a pointer" error, as `fmtFlagUsage`'s `Debugln` line in debug mode and
   * as a plain line before `os.Exit(1)` otherwise. A pointer no flag is bound
   * to panics before writing anything.
   */
  function LookupErrorLines(ref: Ref, debug: bool): (r: seq<string>)
    ensures |r| <= 1
    ensures |r| == 1 <==> ref.NotPointer?
    ensures ref.NotPointer? && !debug ==> r == ["not a pointer: " + ref.shown]
    ensures ref.NotPointer? && debug ==> r == [Sprintln(["not a pointer: " + ref.shown])]
  {
    if ref.Pointer? then []
    else if debug then [Sprintln(["not a pointer: " + ref.shown])]
    else ["not a pointer: " + ref.shown]
  }

  /**
   * `fmtFlagUsage`: records `rest` for the flag and returns its debug line. The
   * flag is dereferenced before its nil check, so a failed lookup panics
   * before anything is recorded.
   */
  method FmtFlagUsage(s: Service, ref: Ref, rest: string) returns (line: string, halt: Halt)
    modifies s`usageErrors, s`output
    ensures halt == Returned <==> ref.Pointer? && LastIndexOf(s.flags, ref.addr) >= 0
    ensures halt != Returned ==> halt == Panicked && s.usageErrors == old(s.usageErrors)
    ensures halt != Returned ==> s.output == old(s.output) + (if s.debug then LookupErrorLines(ref, true) else [])
    ensures halt == Returned ==>
      var f := s.flags[LastIndexOf(s.flags, ref.addr)];
      && s.usageErrors == RecordUsage(old(s.usageErrors), f.flagName, [rest])
      && line == OptionErrorLine(f, rest)
      && s.output == old(s.output) + (if s.debug then ["adding usage error for '" + f.flagName + "': " + rest] else [])
  {
    var lookup := FindEnvFlag(s.flags, ref);
    if lookup.NotAPointer? {
      Debugln(s, [lookup.message]);
      return "", Panicked;
    }
    if lookup.NotFound? {
      return "", Panicked;
    }
    var flg := lookup.flag;
    Debugf(s, "adding usage error for '" + flg.flagName + "': " + rest);
    s.usageErrors := RecordUsage(s.usageErrors, flg.flagName, [rest]);
    line := OptionErrorLine(flg, rest);
    halt := Returned;
  }

  /**
   * The shared body of `Usage`, `Usagef` and `Usageln` for the formatted message
   * `text`. In debug mode `fmtFlagUsage` records the message as well, so it is
   * appended twice.
   */
  method AddUsage(s: Service, ref: Ref, text: string) returns (halt: Halt)
    modifies s`usageErrors, s`output
    ensures Recorded(s.usageErrors, halt) == UsageEffect(old(s.usageErrors), s.flags, s.debug, UsageCall(ref, text))
    ensures halt == Returned <==> ref.Pointer? && LastIndexOf(s.flags, ref.addr) >= 0
    ensures halt.Exited? <==> !s.debug && ref.NotPointer?
    ensures halt.Exited? ==> halt.code == 1
    ensures halt != Returned ==> s.usageErrors == old(s.usageErrors)
    ensures halt != Returned ==> s.output == old(s.output) + LookupErrorLines(ref, s.debug)
    ensures halt == Returned ==>
      var f := s.flags[LastIndexOf(s.flags, ref.addr)];
      s.usageErrors == RecordUsage(old(s.usageErrors), f.flagName, if s.debug then [text, text] else [text])
    ensures halt == Returned ==>
      var f := s.flags[LastIndexOf(s.flags, ref.addr)];
      s.output == old(s.output) + (if s.debug then ["adding usage error for '" + f.flagName + "': " + text, OptionErrorLine(f, text)] else [])
    ensures Grows(old(s.usageErrors), s.usageErrors)
  {
    ghost var ue0 := s.usageErrors;
    if s.debug {
      var line, h := FmtFlagUsage(s, ref, text);
      if h != Returned {
        return h;
      }
      Output(s, line);
    }
    var lookup := FindEnvFlag(s.flags, ref);
    if lookup.NotAPointer? {
      Output(s, lookup.message);
      return Exited(1);
    }
    if lookup.NotFound? {
      return Panicked;
    }
    var name := lookup.flag.flagName;
    if s.debug {
      RecordTwice(ue0, name, text);
    }
    s.usageErrors := RecordUsage(s.usageErrors, name, [text]);
    halt := Returned;
  }

  /** `Usage`: the message is `fmt.Sprint` of the arguments. */
  method Usage(s: Service, ref: Ref, v: seq<string>) returns (halt: Halt)
    modifies s`usageErrors, s`output
    ensures Recorded(s.usageErrors, halt) == UsageEffect(old(s.usageErrors), s.flags, s.debug, UsageCall(ref, Sprint(v)))
    ensures halt == Returned <==> ref.Pointer? && LastIndexOf(s.flags, ref.addr) >= 0
    ensures halt.Exited? <==> !s.debug && ref.NotPointer?
    ensures halt.Exited? ==> halt.code == 1
    ensures halt != Returned ==> s.usageErrors == old(s.usageErrors)
    ensures halt != Returned ==> s.output == old(s.output) + LookupErrorLines(ref, s.debug)
    ensures halt == Returned ==>
      var f := s.flags[LastIndexOf(s.flags, ref.addr)];
      s.usageErrors == RecordUsage(old(s.usageErrors), f.flagName, if s.debug then [Sprint(v), Sprint(v)] else [Sprint(v)])
    ensures halt == Returned ==>
      var f := s.flags[LastIndexOf(s.flags, ref.addr)];
      s.output == old(s.output) + (if s.debug then ["adding usage error for '" + f.flagName + "': " + Sprint(v), OptionErrorLine(f, Sprint(v))] else [])
    ensures Grows(old(s.usageErrors), s.usageErrors)
  {
    halt := AddUsage(s, ref, Sprint(v));
  }

  /** `Usagef`, with the format already applied to its arguments. */
  method Usagef(s: Service, ref: Ref, formatted: string) returns (halt: Halt)
    modifies s`usageErrors, s`output
    ensures Recorded(s.usageErrors, halt) == UsageEffect(old(s.usageErrors), s.flags, s.debug, UsageCall(ref, formatted))
    ensures halt == Returned <==> ref.Pointer? && LastIndexOf(s.flags, ref.addr) >= 0
    ensures halt.Exited? <==> !s.debug && ref.NotPointer?
    ensures halt.Exited? ==> halt.code == 1
    ensures halt != Returned ==> s.usageErrors == old(s.usageErrors)
    ensures halt != Returned ==> s.output == old(s.output) + LookupErrorLines(ref, s.debug)
    ensures halt == Returned ==>
      var f := s.flags[LastIndexOf(s.flags, ref.addr)];
      s.usageErrors == RecordUsage(old(s.usageErrors), f.flagName, if s.debug then [formatted, formatted] else [formatted])
    ensures halt == Returned ==>
      var f := s.flags[LastIndexOf(s.flags, ref.addr)];
      s.output == old(s.output) + (if s.debug then ["adding usage error for '" + f.flagName + "': " + formatted, OptionErrorLine(f, formatted)] else [])
    ensures Grows(old(s.usageErrors), s.usageErrors)
  {
    halt := AddUsage(s, ref, formatted);
  }

  /** `Usageln`: the message is `fmt.Sprintln` of the arguments, newline included. */
  method Usageln(s: Service, ref: Ref, v: seq<string>) returns (halt: Halt)
    modifies s`usageErrors, s`output
    ensures Recorded(s.usageErrors, halt) == UsageEffect(old(s.usageErrors), s.flags, s.debug, UsageCall(ref, Sprintln(v)))
    ensures halt == Returned <==> ref.Pointer? && LastIndexOf(s.flags, ref.addr) >= 0
    ensures halt.Exited? <==> !s.debug && ref.NotPointer?
    ensures halt.Exited? ==> halt.code == 1
    ensures halt != Returned ==> s.usageErrors == old(s.usageErrors)
    ensures halt != Returned ==> s.output == old(s.output) + LookupErrorLines(ref, s.debug)
    ensures halt == Returned ==>
      var f := s.flags[LastIndexOf(s.flags, ref.addr)];
      s.usageErrors == RecordUsage(old(s.usageErrors), f.flagName, if s.debug then [Sprintln(v), Sprintln(v)] else [Sprintln(v)])
    ensures halt == Returned ==>
      var f := s.flags[LastIndexOf(s.flags, ref.addr)];
      s.output == old(s.output) + (if s.debug then ["adding usage error for '" + f.flagName + "': " + Sprintln(v), OptionErrorLine(f, Sprintln(v))] else [])
    ensures Grows(old(s.usageErrors), s.usageErrors)
  {
    halt := AddUsage(s, ref, Sprintln(v));
  }

}
