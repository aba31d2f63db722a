/**
 * plug/plugtest/env.go and the `Run` of plug/plugtest/plugtest.go: the test
 * helper's environment builder. A `PT` owns the environment map its service
 * will read, its setters write into it until the test has run, and its run
 * hands that map to a fresh service.
 */
module PlugTest {
  import opened Wrappers
  import opened Text
  import opened EnvFlags
  import opened Errors
  import opened UsageLog
  import Services

  /** The key a setter writes for the input key `k`. */
  function EnvKey(prefix: string, k: string): string
  {
    ToUpper(prefix + k)
  }

  /** `key` comes from some key of `o` under the setter's transform. */
  ghost predicate Produced(o: map<string, string>, prefix: string, key: string)
  {
    exists k :: k in o && EnvKey(prefix, k) == key
  }

  /** `key` holds the value of one of the input keys that map to it. */
  ghost predicate WrittenFrom(env: Env, o: map<string, string>, prefix: string, key: string)
  {
    key in env && exists k :: k in o && EnvKey(prefix, k) == key && env[key] == o[k]
  }

  /**
   * What a setter leaves: every produced key holds a value written for it,
   * every other key is as it was, and no other key appears.
   */
  ghost predicate PutResult(before: Env, o: map<string, string>, prefix: string, after: Env)
  {
    && (forall key :: key in after <==> key in before || Produced(o, prefix, key))
    && (forall key :: key in after && !Produced(o, prefix, key) ==> key in before && after[key] == before[key])
    && (forall key :: Produced(o, prefix, key) ==> WrittenFrom(after, o, prefix, key))
  }

  /** When two input keys upper-case to the same key, map order picks the winner; otherwise it is determined. */
  lemma PutResultUnique(before: Env, o: map<string, string>, prefix: string, after: Env, k: string)
    requires PutResult(before, o, prefix, after)
    requires k in o
    requires forall k' :: k' in o && EnvKey(prefix, k') == EnvKey(prefix, k) ==> k' == k
    ensures EnvKey(prefix, k) in after && after[EnvKey(prefix, k)] == o[k]
  {
    assert Produced(o, prefix, EnvKey(prefix, k));
  }

  /** One step of the loop: writing the value of `k` keeps `PutResult` with `k` added to the keys done. */
  lemma PutStep(before: Env, done: map<string, string>, prefix: string, env: Env, k: string, v: string)
    requires PutResult(before, done, prefix, env)
    ensures PutResult(before, done[k := v], prefix, env[EnvKey(prefix, k) := v])
  {
    var done', env' := done[k := v], env[EnvKey(prefix, k) := v];
    forall key | Produced(done', prefix, key) ensures WrittenFrom(env', done', prefix, key) {
      if key != EnvKey(prefix, k) {
        var k' :| k' in done' && EnvKey(prefix, k') == key;
        assert Produced(done, prefix, key);
        var k'' :| k'' in done && EnvKey(prefix, k'') == key && env[key] == done[k''];
        assert k'' != k;
      }
    }
    forall key | key in env' && !Produced(done', prefix, key) ensures key in before && env'[key] == before[key] {
      assert !Produced(done, prefix, key);
    }
    forall key | key in env' ensures key in before || Produced(done', prefix, key) {
      if key != EnvKey(prefix, k) && key !in before {
        var k' :| k' in done && EnvKey(prefix, k') == key;
        assert k' in done';
      }
    }
  }

  class PT {
    var env: Env
    var hasRun: bool
    var runErr: Option<ExecError>

    /** `New`: an empty environment, then `SetVars({"drone": "true"})`. */
    constructor()
      ensures env == map["DRONE" := "true"] && !hasRun && runErr.None?
      ensures Services.AsPlugin(EnvFunc())
    {
      env := map[];
      hasRun := false;
      runErr := None;
      new;
      var _ := SetVars(map["drone" := "true"]);
      assert EnvKey("", "drone") == "DRONE";
      assert Produced(map["drone" := "true"], "", "DRONE");
      forall key | key in env ensures key == "DRONE" {
        assert Produced(map["drone" := "true"], "", key);
      }
    }

    /** `envFunc`: the service reads the very map the setters wrote. */
    function EnvFunc(): (r: Env)
      reads this
      ensures r == env
    {
      env
    }

    /** The `range` loop shared by `SetPluginVars` and `SetVars`; Go's map order is left open. */
    method PutAll(o: map<string, string>, prefix: string)
      modifies this
      ensures hasRun == old(hasRun) && runErr == old(runErr)
      ensures PutResult(old(env), o, prefix, env)
    {
      var keys := o.Keys;
      ghost var done: map<string, string> := map[];
      while keys != {}
        invariant keys + done.Keys == o.Keys && keys !! done.Keys
        invariant forall k :: k in done ==> done[k] == o[k]
        invariant hasRun == old(hasRun) && runErr == old(runErr)
        invariant PutResult(old(env), done, prefix, env)
        decreases keys
      {
        var k :| k in keys;
        PutStep(old(env), done, prefix, env, k, o[k]);
        env := env[EnvKey(prefix, k) := o[k]];
        done := done[k := o[k]];
        keys := keys - {k};
      }
      assert done == o;
    }

    /** `SetDebug`: turns on debug mode for the service; refused once the test has run. */
    method SetDebug() returns (ok: bool)
      modifies this
      ensures ok == !old(hasRun) && hasRun == old(hasRun) && runErr == old(runErr)
      ensures ok ==> env == old(env)["PLUGIN_PLUGIN_DEBUG" := "true"] && Services.DebugEnabled(EnvFunc())
      ensures !ok ==> env == old(env)
    {
      if hasRun {
        return false;
      }
      env := env["PLUGIN_PLUGIN_DEBUG" := "true"];
      ok := true;
    }

    /** `SetPluginVars`: each value under `PLUGIN_` plus the upper-cased key; refused once the test has run. */
    method SetPluginVars(o: map<string, string>) returns (ok: bool)
      modifies this
      ensures ok == !old(hasRun) && hasRun == old(hasRun) && runErr == old(runErr)
      ensures ok ==> PutResult(old(env), o, "plugin_", env)
      ensures !ok ==> env == old(env)
    {
      if hasRun {
        return false;
      }
      PutAll(o, "plugin_");
      ok := true;
    }

    /** `SetVars`: each value under its upper-cased key; refused once the test has run. */
    method SetVars(o: map<string, string>) returns (ok: bool)
      modifies this
      ensures ok == !old(hasRun) && hasRun == old(hasRun) && runErr == old(runErr)
      ensures ok ==> PutResult(old(env), o, "", env)
      ensures !ok ==> env == old(env)
    {
      if hasRun {
        return false;
      }
      PutAll(o, "");
      ok := true;
    }

    /**
     * `Run`: refused once the test has run; otherwise a fresh service with its
     * own flag set, this helper's `envFunc`, the program name `argv0` as the
     * only argument, a log buffer and `ContinueOnError` runs. Its `Err` is kept
     * unless the service panics or exits, in which case `Run` never gets to
     * it. The service writes the keys of loaded env files into the very map
     * `envFunc` hands it, so they show in this helper's environment. The
     * service's outcome is returned, or None when the run is refused.
     */
    method Run(argv0: string, c: Services.Collaborators) returns (ok: bool, err: Option<ExecError>, outcome: Option<Services.RunOutcome>)
      modifies this
      ensures ok == !old(hasRun) && hasRun
      ensures outcome.Some? <==> ok
      ensures !ok ==> env == old(env) && runErr == old(runErr)
      ensures ok ==> env == Services.LoadedEnv(old(env), c, [argv0])
      ensures ok ==> outcome.value == HelperOutcome(old(env), c)
      ensures ok && !Halts(outcome.value) ==> runErr == RunErr(old(env), c)
      ensures ok && Halts(outcome.value) ==> runErr == old(runErr)
      ensures err == runErr
    {
      if hasRun {
        return false, runErr, None;
      }
      hasRun := true;
      var opts := [Services.SetFlagSet(0), Services.SetEnvFunc(0), Services.SetArgsFunc(0), Services.SetLogger(0), Services.ContinueOnError];
      ContinueOnErrorConfigured(opts);
      var s := Services.NewService(opts);
      var o, env', reports := s.Run([argv0], env, c);
      env := env';
      if !Halts(o) {
        runErr := s.Err();
      }
      ok, err, outcome := true, runErr, Some(o);
    }
  }

  /** A run Go ends by a panic or by `os.Exit`, so the code after it never runs. */
  predicate Halts(o: Services.RunOutcome)
  {
    o.PanickedAt? || (o.Failed? && o.exited)
  }

  /** How the helper's service run on `env0` ends: the program name alone never stops it before its parses. */
  function HelperOutcome(env0: Env, c: Services.Collaborators): Services.RunOutcome
  {
    Services.ExecTail(c, false, Services.AsPlugin(env0), Services.DebugEnabled(env0), true, map[], None).outcome
  }

  /**
   * The helper's service continues on errors, so its run stops early only when
   * one of the runner's usage calls exits or panics.
   */
  lemma HelperHaltsIffUsageCallHalts(env0: Env, c: Services.Collaborators)
    ensures Halts(HelperOutcome(env0, c)) <==>
      && c.envParseErr.None? && c.argParseErr.None?
      && PlayUsage(map[], c.registry, Services.DebugEnabled(env0), c.usageCalls).halt != Returned
  {
  }

  /** The options of the helper's service leave it continuing on errors. */
  lemma ContinueOnErrorConfigured(opts: seq<Services.ServiceOption>)
    requires opts == [Services.SetFlagSet(0), Services.SetEnvFunc(0), Services.SetArgsFunc(0), Services.SetLogger(0), Services.ContinueOnError]
    ensures Services.NilOption !in opts && Services.Configure(opts).continueOnError
  {
    assert opts[..|opts| - 1][..3] == opts[..3];
  }

  /**
   * The error the helper's run keeps, for a run on `env0`: the service's `Err`
   * after a run with no arguments that continues on errors, from a fresh state.
   */
  function RunErr(env0: Env, c: Services.Collaborators): (r: Option<ExecError>)
    ensures r.Some? ==> r.value.usageErrors == Services.ExecTail(c, false, Services.AsPlugin(env0), Services.DebugEnabled(env0), true, map[], None).usageErrors
  {
    var t := Services.ExecTail(c, false, Services.AsPlugin(env0), Services.DebugEnabled(env0), true, map[], None);
    if t.execErr.None? && |t.usageErrors| == 0 then None else Some(ExecError(t.execErr, t.usageErrors))
  }

  /**
   * A runner whose `Exec` records one usage message for a flag and returns nil,
   * with nothing else wrong, passes its run, yet the helper's error reports
   * "usage errors" and holds the message under the flag's name.
   */
  lemma OneUsageMessageFailsTest(env0: Env, c: Services.Collaborators, h: nat, msg: string)
    requires c.envParseErr.None? && c.argParseErr.None? && c.execResult.None?
    requires forall i :: 0 <= i < |c.registry| ==> c.registry[i].err.None?
    requires LastIndexOf(c.registry, h) >= 0 && !Services.DebugEnabled(env0)
    requires c.usageCalls == [UsageCall(Pointer(h), msg)]
    ensures var name := c.registry[LastIndexOf(c.registry, h)].flagName;
      && Services.ExecTail(c, false, Services.AsPlugin(env0), false, true, map[], None).outcome == Services.Completed
      && RunErr(env0, c).Some? && ExecErrorText(RunErr(env0, c).value) == "usage errors"
      && RunErr(env0, c).value.usageErrors == map[name := [msg]]
  {
    var name := c.registry[LastIndexOf(c.registry, h)].flagName;
    var first := UsageEffect(map[], c.registry, false, c.usageCalls[0]);
    assert Messages(map[], name) + [msg] == [msg];
    assert RecordUsage(map[], name, [msg]) == map[name := [msg]];
    assert first == Recorded(map[name := [msg]], Returned);
    assert c.usageCalls[1..] == [];
    assert PlayUsage(map[], c.registry, false, c.usageCalls) == first;
    assert |map[name := [msg]]| == 1;
  }

  /** Every key `SetPluginVars` writes starts with `PLUGIN_`. */
  lemma PluginKeysPrefixed(k: string)
    ensures |EnvKey("plugin_", k)| == 7 + |k|
    ensures EnvKey("plugin_", k)[..7] == "PLUGIN_"
  {
    var r := EnvKey("plugin_", k);
    assert r[0] == UpperChar('p') == 'P';
    assert r[1] == UpperChar('l') == 'L';
    assert r[2] == UpperChar('u') == 'U';
    assert r[3] == UpperChar('g') == 'G';
    assert r[4] == UpperChar('i') == 'I';
    assert r[5] == UpperChar('n') == 'N';
    assert r[6] == UpperChar('_') == '_';
  }

  /** The key `SetDebug` writes is the one `SetPluginVars({"plugin_debug": ...})` would write. */
  lemma DebugKeyIsPluginVar()
    ensures EnvKey("plugin_", "plugin_debug") == "PLUGIN_PLUGIN_DEBUG"
  {
  }
}
