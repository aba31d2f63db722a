/**
 * The per-flag state that the fenv library keeps for every registered flag.
 * Its computation (env lookup, alias precedence, parsing) is not part of this
 * model: records of this type are supplied as inputs.
 */
module EnvFlags {
  import opened Wrappers

  /** An environment snapshot. */
  type Env = map<string, string>

  /** Usage messages by flag name, as the service records them. */
  type UsageErrors = map<string, seq<string>>

  /**
   * One `fenv.EnvFlag`. `handle` stands for the address of the storage the flag
   * is bound to; `name` is the env name that matched ("" if none); `value` is
   * `Flag.Value.String()`; `envValue` is the raw env value that was read.
   */
  datatype EnvFlag = EnvFlag(
    handle: nat,
    flagName: string,
    usage: string,
    names: seq<string>,
    name: string,
    isSet: bool,
    isSelfSet: bool,
    err: Option<string>,
    envValue: string,
    value: string)

  /** A Go map index: a missing key reads as the zero value "". */
  function Get(env: Env, key: string): string
  {
    if key in env then env[key] else ""
  }

  /** A Go map index into the usage-error map: a missing key reads as the empty list. */
  function Messages(ue: UsageErrors, flagName: string): seq<string>
  {
    if flagName in ue then ue[flagName] else []
  }
}
