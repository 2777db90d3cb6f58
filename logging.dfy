/**
 * The leveled console logger of main.py: the `Log` enumeration, the table
 * from the `LOG` setting to the process-wide ordinal `logLevel`, and the
 * `write_log` filter. Printing is modelled as the line that would be
 * printed (`Some(line)`) or nothing (`None`).
 */
module Logging {
  import opened Wrappers
  import opened Strings

  /** The three message kinds of the `Log` enumeration. */
  datatype Log = Info | Warn | Error

  /** `Log.<kind>.value`. */
  function Value(t: Log): nat {
    match t
    case Info => 3
    case Warn => 2
    case Error => 1
  }

  /** `Log.<kind>.name`, the spelling accepted in the `LOG` setting. */
  function Name(t: Log): string {
    match t
    case Info => "info"
    case Warn => "warn"
    case Error => "error"
  }

  /** `Log.<kind>.name.upper()`, the tag that starts every printed line. */
  function Tag(t: Log): string {
    match t
    case Info => "INFO"
    case Warn => "WARN"
    case Error => "ERROR"
  }

  const DEFAULT_LEVEL_NAME := "info"
  const SILENT_LEVEL_NAME := "none"
  const TAG_SEPARATOR := " | "
  const TEXT_SEPARATOR := "; "

  /** `log_level_mapping`: the accepted level names and their ordinals; `none` silences everything. */
  function LevelOrdinal(name: string): (r: Option<nat>)
    ensures r.Some? <==> name in {Name(Info), Name(Warn), Name(Error), SILENT_LEVEL_NAME}
    ensures r == Some(0) <==> name == SILENT_LEVEL_NAME
    ensures forall t :: r == Some(Value(t)) <==> name == Name(t)
  {
    if name == Name(Info) then Some(3)
    else if name == Name(Warn) then Some(2)
    else if name == Name(Error) then Some(1)
    else if name == SILENT_LEVEL_NAME then Some(0)
    else None
  }

  /** The `LOG` setting as read at start-up, lower-cased, defaulting to `info`. */
  function LevelName(env: map<string, string>): string {
    Lower(if "LOG" in env then env["LOG"] else DEFAULT_LEVEL_NAME)
  }

  /**
   * Start-up resolution of `logLevel`: an unknown name raises
   * `KeyError("Invalid log level: <name>")` before the ordinal is set.
   */
  function ResolveLogLevel(env: map<string, string>): (r: Result<nat, string>)
    ensures r.Success? <==> LevelName(env) in {"info", "warn", "error", SILENT_LEVEL_NAME}
    ensures r.Success? ==> r.value <= 3
    ensures r == Success(0) <==> LevelName(env) == SILENT_LEVEL_NAME
    ensures forall t :: r == Success(Value(t)) <==> LevelName(env) == Name(t)
    ensures r.Failure? ==> r.error == "Invalid log level: " + LevelName(env)
  {
    match LevelOrdinal(LevelName(env))
    case Some(n) => Success(n)
    case None => Failure("Invalid log level: " + LevelName(env))
  }

  /** `write_log(*text, type=t)` under the configured `logLevel`. */
  function WriteLog(logLevel: nat, t: Log, text: seq<string>): (line: Option<string>)
    ensures line.Some? <==> Value(t) <= logLevel
    ensures logLevel == 0 ==> line.None?
  {
    if Value(t) <= logLevel then Some(Tag(t) + TAG_SEPARATOR + Join(text, TEXT_SEPARATOR)) else None
  }

  /** Reads a tag back into its message kind. */
  function TagKind(tag: string): (r: Option<Log>)
    ensures forall t :: r == Some(t) <==> tag == Tag(t)
  {
    if tag == "INFO" then Some(Info)
    else if tag == "WARN" then Some(Warn)
    else if tag == "ERROR" then Some(Error)
    else None
  }

  /** Reads a printed line back into its kind and its texts. */
  function ParseLine(line: string): Option<(Log, seq<string>)> {
    match FindFrom(line, TAG_SEPARATOR, 0)
    case None => None
    case Some(k) =>
      match TagKind(line[..k])
      case None => None
      case Some(t) => Some((t, Split(line[k + |TAG_SEPARATOR|..], TEXT_SEPARATOR)))
  }

  /**
   * Every printed line names its kind and lists the texts in order: it
   * reads back to the call's arguments when no text holds a `;`.
   */
  lemma {:induction false} WriteLogRoundTrip(logLevel: nat, t: Log, text: seq<string>)
    requires Value(t) <= logLevel
    requires |text| > 0 && forall i :: 0 <= i < |text| ==> ';' !in text[i]
    ensures WriteLog(logLevel, t, text).Some?
    ensures ParseLine(WriteLog(logLevel, t, text).value) == Some((t, text))
  {
    var body := Join(text, TEXT_SEPARATOR);
    var line := Tag(t) + TAG_SEPARATOR + body;
    assert line == Tag(t) + (TAG_SEPARATOR + body);
    assert (TAG_SEPARATOR + body)[..|TAG_SEPARATOR|] == TAG_SEPARATOR;
    FindAtBoundary(Tag(t), TAG_SEPARATOR, TAG_SEPARATOR + body);
    assert line[..|Tag(t)|] == Tag(t);
    assert line[|Tag(t)| + |TAG_SEPARATOR|..] == body;
    SplitJoin(text, TEXT_SEPARATOR);
  }

  /** Raising the level never hides a line that a lower level prints. */
  lemma WriteLogMonotonic(low: nat, high: nat, t: Log, text: seq<string>)
    requires low <= high
    ensures WriteLog(low, t, text).Some? ==> WriteLog(high, t, text) == WriteLog(low, t, text)
  {
  }

  /** Case does not matter: the upper-case tag, given as `LOG`, selects the same kind's level. */
  lemma TagSelectsLevel(env: map<string, string>, t: Log)
    requires "LOG" in env && env["LOG"] == Tag(t)
    ensures ResolveLogLevel(env) == Success(Value(t))
  {
  }

  /** Without a `LOG` setting every kind of message is printed. */
  lemma DefaultLevelPrintsAll(env: map<string, string>, t: Log, text: seq<string>)
    requires "LOG" !in env
    ensures ResolveLogLevel(env) == Success(3)
    ensures WriteLog(3, t, text).Some?
  {
  }
}
