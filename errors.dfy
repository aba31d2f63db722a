/** The error values of plug/error.go. */
module Errors {
  import opened Wrappers
  import Text

  /**
   * A Go `error` value: either an `ExitError` struct or any other error,
   * known only by the text its `Error()` method returns.
   */
  datatype Error =
    | ExitError(text: string, exitCode: int)
    | OtherError(message: string)
  {
    /** `Error()`: an `ExitError` reports its `Text`. */
    function Text(): (r: string)
      ensures ExitError? ==> r == text
      ensures OtherError? ==> r == message
    {
      match this
      case ExitError(t, _) => t
      case OtherError(m) => m
    }
  }

  /** The error a runner returns to ask for the usage report and exit code 1. */
  const ErrUsageError: Error := ExitError("usage error", 1)

  /** What `Service.Err` hands back: the runner's error and every flag's usage messages. */
  datatype ExecError = ExecError(err: Option<Error>, usageErrors: map<string, seq<string>>)

  /**
   * `ExecError.Error()`: usage errors win over the runner's error, whose text is
   * passed on unchanged; with neither the text is "no errors".
   */
  function ExecErrorText(e: ExecError): (r: string)
    ensures |e.usageErrors| > 0 ==> r == "usage errors"
    ensures |e.usageErrors| == 0 && e.err.Some? ==> r == e.err.value.Text()
    ensures |e.usageErrors| == 0 && e.err.None? ==> r == "no errors"
  {
    if |e.usageErrors| > 0 then "usage errors"
    else
      var errs := if e.err.Some? then [e.err.value.Text()] else [];
      if |errs| == 0 then "no errors" else Text.Join(errs, "; ")
  }

  lemma UsageErrorConstant()
    ensures ErrUsageError.Text() == "usage error" && ErrUsageError.exitCode == 1
  {
  }
}
