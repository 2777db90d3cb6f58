# solarplant scraper core, modelled in Dafny

The program polls a solar inverter's status page (`main.py`). It extracts three numbers from inline
script text and stores them as one database row per cycle. This project models the logic between those
I/O steps:

- **Log level and filter** (`Logging`). The `LOG` setting is read at start-up, lower-cased and mapped
  through the table `info`→3, `warn`→2, `error`→1, `none`→0. An unknown name raises before `logLevel`
  is set. `write_log` prints `<KIND> | text1; text2; …` exactly when the kind's value is at most
  `logLevel`. A printed line is modelled as the line itself (`Some(line)`) and silence as `None`.
- **Configuration** (`Config`). `check_env_variables` works over an environment given as a map. It
  fails with a message that lists every unset required name, in order, joined by `", "`. Otherwise it
  returns every required name with its value and every optional name with its value or its default.
  The method `CheckEnvVariables` keeps the source's loop over the optional names and is proved equal to
  the specification function `ResolveEnv`.
- **Value extraction** (`Extract`). `getValuesFromHtml` works over the sequence of script-block strings
  of the page, each possibly absent. The three searches `var webdata_… = "([^"]+)"` are modelled with
  `re.search` semantics: leftmost match, a non-empty quote-free capture ending at a quote, and positions
  where the literal occurs but the capture fails are skipped. The first usable block in which all three
  match supplies the sample. The conversions `int(x)` and `int(float(x) * 1000)` are parameters that may
  fail. A failure is the exception (`ValueError`, or `OverflowError` for an infinite value) that nothing
  in the program catches.
- **Poll cycle** (`Poll`). `getData` returns nothing when the fetch failed and otherwise the extractor's
  result. One iteration stores the row only when there is data and `total_energy > 0`, then sleeps
  `interval`; otherwise it stores nothing and sleeps 20 seconds. An `interval` that is negative
  or beyond `time.sleep`'s signed 64-bit nanosecond range makes `time.sleep` raise right after the row
  is stored. `PollLoop` runs the first `n` iterations and proves
  that every stored row has a positive total.
- **Start-up error path** (`Startup`). This module covers the handler around `check_env_variables`;
  see Findings.

In three places the model follows `main.py` where a reader might expect otherwise:

- `LOG` is read directly from the environment, not from the resolved settings.
- An invalid `LOG` raises `KeyError`.
- A failed numeric conversion (`ValueError`, or `OverflowError` for an infinite value) is an uncaught
  exception that ends the process, not a recoverable extraction failure.

## Model

| member | source | states |
|---|---|---|
| `Strings.SplitJoin` | main.py:61-63 | a list joined with a separator splits back into the same list when no element holds the separator's first character |
| `Logging.LevelOrdinal` | main.py:25-30 | the accepted names are exactly info/warn/error/none; `none` is the only name with ordinal 0, and each kind's name maps to that kind's value (both directions) |
| `Logging.ResolveLogLevel` | main.py:24-36 | the lower-cased `LOG` setting (default `info`) succeeds iff it is one of the four names, gives an ordinal of at most 3, and otherwise fails with `Invalid log level: <name>` |
| `Logging.TagSelectsLevel` | main.py:24 | lower-casing makes the setting case-insensitive: `LOG=INFO`/`WARN`/`ERROR` selects that kind's value |
| `Logging.DefaultLevelPrintsAll` | main.py:24-36 | with `LOG` unset the level is 3 and every kind of message is printed |
| `Logging.WriteLog` | main.py:38-48 | a line is printed iff the kind's value is at most `logLevel`; at level 0 nothing is ever printed |
| `Logging.WriteLogRoundTrip` | main.py:47-48 | a printed line reads back to its kind (from the upper-case tag before ` \| `) and to the texts in order (split at `; `) |
| `Logging.WriteLogMonotonic` | main.py:47 | a line printed at some level is printed unchanged at every higher level |
| `Config.Missing` | main.py:61 | a name is listed iff it is required and unset |
| `Config.MissingConcat` | main.py:61 | the missing names keep the order of `required_vars` (listing distributes over concatenation) |
| `Config.ResolveEnv` | main.py:53-69 | fails iff some required name is unset; on success the keys are exactly the required and optional names, with required names mapped to their values and optional names to their value or default |
| `Config.CheckEnvVariables` | main.py:53-69 | the loop that adds the optional names to the required ones returns exactly `ResolveEnv` |
| `Config.MissingMessageLists` | main.py:61-63 | the error message is the fixed prefix followed by exactly the missing names, in order, separated by `", "` |
| `Config.MissingServerIsReported` | main.py:61-80 | with the program's own required list, an unset `WEB_SERVER` fails the check and the message names it |
| `Config.DefaultsApply` | main.py:65-88 | with every required name set and `LOG`/`INTERVAL` unset, the settings hold `LOG=info` and `INTERVAL=600` |
| `Extract.MatchAt` | main.py:202-204 | at one position the pattern matches exactly when the literal is followed by a non-empty quote-free run ending at a quote; the capture is that run |
| `Extract.SearchFrom` | main.py:202-204 | the search returns the first position at or after the start where the pattern matches, and fails iff no position matches |
| `Extract.Search` | main.py:202-204 | `re.search` fails iff the assignment occurs nowhere; otherwise it returns the leftmost capture, which is non-empty and holds no `"` |
| `Extract.FindValues` | main.py:202-206 | a block yields values iff all three assignments occur in it; each value is that assignment's leftmost capture in the same block |
| `Extract.FirstFrom` | main.py:197-206 | the loop picks the first block, in document order, that is present, non-empty and holds all three assignments; every earlier block fails that test |
| `Extract.Convert` | main.py:207-215 | the sample holds the three conversions when all succeed; otherwise the error carries the text of the first conversion, in the order power, today, total, that failed |
| `Extract.GetValuesFromHtml` | main.py:188-218 | nothing is returned iff no block qualifies; otherwise the result is the conversion of the first qualifying block's captures |
| `Poll.GetData` | main.py:221-235 | the result is empty iff the fetch failed or no block qualifies; after a successful fetch it is the extractor's result unchanged |
| `Poll.Decide` | main.py:248-254 | a row is stored iff there is data with `total_energy > 0`, and that row is the sample; after a stored row the sleep is `interval`, and an `interval` out of the 64-bit nanosecond range (`OverflowError`) or negative (`ValueError`) ends the loop; otherwise the sleep is 20 seconds; a conversion error ends the loop |
| `Poll.Cycle` | main.py:244-254 | a failed fetch stores nothing and sleeps 20 seconds; a stored row has a positive total, is the conversion of the first qualifying script block of the fetched page, and is followed by a sleep of `interval` exactly when `time.sleep` accepts it, and by a crash otherwise |
| `Poll.SleepAcceptedRange` | main.py:251 | `time.sleep` accepts exactly the intervals from 0 to (2^63 - 1) / 10^9 seconds |
| `Poll.HugeIntervalCrashes` | main.py:249-251 | with `INTERVAL=1e10` a cycle with data stores its row and then ends with the overflow |
| `Poll.Stored` | main.py:248-251 | every row handed to `storeData` has `total_energy > 0`, including the row stored just before `time.sleep` raises |
| `Poll.PollLoop` | main.py:244-254 | the stored rows are those the cycles chose, in order, including the row of a cycle that then crashed; each completed cycle slept the pause it chose; the loop stops exactly at the first cycle that raises, either from a conversion or from a sleep whose length is out of range or negative |
| `Startup.ReportConfigErrorAsWritten` | main.py:90-96 | as written, the handler of a configuration error prints no line, and the process ends with `TypeError` when the error level is enabled and `NameError` otherwise |
| `Startup.MissingServerAsWritten` | main.py:90-96 | with `LOG` unset and `WEB_SERVER` missing, the error handler as written prints no line (only the level line of main.py:50 has been printed) and the process ends with `TypeError` |
| `Startup.ReportConfigError` | main.py:90-96 | the corrected handler ends with the configuration error and prints exactly one line iff the error level is enabled |
| `Startup.MissingServerReported` | main.py:61-96 | with the corrected handler, an unset `WEB_SERVER` prints `ERROR \| <message>` and the message names `WEB_SERVER` |

## Left out

- `requestWebserver` (HTTP with Basic auth, `verify=False`, status check): the fetch is an `Option<string>` input.
- `storeData` (MySQL connection, insert, commit, close, caught errors): the model records only which row would be stored. A database error is caught inside `storeData` and does not change the cycle.
- BeautifulSoup parsing: `Poll.Cycle` takes the parser as a function from page text to the script blocks' `.string` values.
- Numeric conversion: `int(x)` follows Python's literal grammar, and `int(float(x) * 1000)` is floating-point arithmetic (for example, "1.005" gives 1004). Both are parameters that return a value or fail. No exact kWh-to-Wh result is claimed.
- `load_dotenv`/`os.getenv`: the environment is a map parameter.
- The `print` of the chosen level (line 50) and the log line of sorted setting names (line 92) are not modelled. Neither are the other `write_log` calls inside the cycle (lines 171, 179, 184, 140, 154, 157, 163, 243-253). They only print.
- `float(INTERVAL)` (line 104): `interval` is a `real` parameter. A value that is not a number makes `float` raise at start-up, which is not modelled. NaN and infinity have no `real` counterpart: for them `time.sleep` raises too, which the model does not capture.
- `datetime.now`, `time.sleep` and the non-terminating `while True`: a sleep is a duration in the result, and `Poll.PollLoop` covers a finite number of iterations.
- `Poll.PollLoop`: takes the sequence of `getData` results, one per iteration, not the raw fetch results. `Poll.Cycle` connects one fetch result to its `getData` result and decision. A NaN or infinite `interval` from `float()` is not a `real`, so the crash of `time.sleep` on those values is not captured.
- `Poll.Decide`: the nanosecond conversion of `time.sleep` is taken in exact arithmetic, while CPython rounds `interval * 1e9` in floating point. For intervals within a rounding step of the 64-bit limit the model may disagree on whether `OverflowError` is raised.
- `Extract.Convert`: `ValueError` (text that is not a number) and `OverflowError` (`int(inf)`) are one outcome, `ConversionError`, carrying the text that failed; the model does not tell the two exception types apart.
- The static header table and URL formatting (lines 107-119): constant data with no behaviour.
- `Logging.ResolveLogLevel`: lower-cases ASCII letters only, where Python's `str.lower` covers all of Unicode. No non-ASCII character lower-cases to a letter of `info`, `warn`, `error` or `none`, so acceptance is the same. Only the text of the `Invalid log level` message can differ.
- `Config.ResolveEnv`: the optional names are a map, because Python dict keys are distinct. The order in which the loop adds them does not change the result.

## Findings

| source | as written | input that shows it | evidently intended | confidence | as-written member | corrected member |
|---|---|---|---|---|---|---|
| main.py:93-96 | `write_log(e, type=Log.error)` passes the exception object to `'; '.join`, which accepts only strings. With `LOG=none` the handler falls through to line 96, where `env_vars` is unbound | environment without `WEB_SERVER` and without `LOG` (level 3): `TypeError` is raised and no `ERROR \| Missing required environment variables: WEB_SERVER` line is printed; with `LOG=none`: `NameError` | log the message text at error level and stop with the configuration error | high; not executed | `Startup.ReportConfigErrorAsWritten`, `Startup.MissingServerAsWritten` | `Startup.ReportConfigError`, `Startup.MissingServerReported` |
