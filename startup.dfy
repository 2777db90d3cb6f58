/**
 * What happens at start-up when `check_env_variables` raises (main.py,
 * lines 90-96). As written, the handler passes the exception object itself
 * to `write_log`, whose `'; '.join` accepts only strings; the intended
 * behaviour is to print the error line and stop with the configuration
 * error.
 */
module Startup {
  import opened Wrappers
  import opened Strings
  import opened Logging
  import opened Config

  /** The exception that ends the process. */
  datatype Exception = TypeError | NameError | ConfigurationError(message: string)

  /**
   * The lines the error handler prints before the process ends, and the
   * exception that ends it (the level line printed earlier at start-up is
   * not included).
   */
  datatype Termination = Termination(printed: seq<string>, raised: Exception)

  /**
   * Lines 93-96 as written: with the error level enabled, `'; '.join` on
   * the exception object raises `TypeError` before anything is printed;
   * with level `none` nothing is printed and line 96 reads the unbound
   * `env_vars`.
   */
  function ReportConfigErrorAsWritten(logLevel: nat, message: string): (t: Termination)
    ensures t.printed == []
    ensures !t.raised.ConfigurationError?
    ensures t.raised == TypeError <==> Value(Error) <= logLevel
  {
    if Value(Error) <= logLevel then Termination([], TypeError) else Termination([], NameError)
  }

  /** The corrected handler: log the message text at error level, then stop with the configuration error. */
  function ReportConfigError(logLevel: nat, message: string): (t: Termination)
    ensures t.raised == ConfigurationError(message)
    ensures |t.printed| <= 1
    ensures |t.printed| == 1 <==> Value(Error) <= logLevel
  {
    match WriteLog(logLevel, Error, [message])
    case Some(line) => Termination([line], ConfigurationError(message))
    case None => Termination([], ConfigurationError(message))
  }

  /**
   * With the default settings (`LOG` unset) and `WEB_SERVER` missing, the
   * program as written prints nothing about the missing names and ends
   * with `TypeError`.
   */
  lemma MissingServerAsWritten(env: map<string, string>)
    requires "WEB_SERVER" !in env && "LOG" !in env
    ensures ResolveLogLevel(env) == Success(3)
    ensures ResolveEnv(env, REQUIRED_VARS, OPTIONAL_DEFAULTS).Failure?
    ensures ReportConfigErrorAsWritten(3, ResolveEnv(env, REQUIRED_VARS, OPTIONAL_DEFAULTS).error)
         == Termination([], TypeError)
  {
    DefaultLevelPrintsAll(env, Error, []);
    MissingServerIsReported(env);
  }

  /**
   * The corrected handler prints one error line whose text is the
   * configuration error, and that text names `WEB_SERVER`.
   */
  lemma {:induction false} MissingServerReported(env: map<string, string>, logLevel: nat)
    requires "WEB_SERVER" !in env && 1 <= logLevel
    ensures ResolveEnv(env, REQUIRED_VARS, OPTIONAL_DEFAULTS).Failure?
    ensures var e := ResolveEnv(env, REQUIRED_VARS, OPTIONAL_DEFAULTS).error;
      var t := ReportConfigError(logLevel, e);
      && t.raised == ConfigurationError(e)
      && |t.printed| == 1
      && t.printed[0] == Tag(Error) + TAG_SEPARATOR + e
      && |MISSING_PREFIX| <= |e| && "WEB_SERVER" in Split(e[|MISSING_PREFIX|..], NAME_SEPARATOR)
  {
    MissingServerIsReported(env);
  }
}
