/**
 * `getData` and the body of `main`'s `while True` loop. The HTTP fetch is
 * an input (`None` when the request failed), the HTML parser is a
 * parameter from page text to script-block strings, and a cycle's effect is
 * the row handed to `storeData` (if any) and the length of the sleep, or the
 * uncaught exception that ends the process.
 */
module Poll {
  import opened Wrappers
  import opened Extract

  /** The short back-off after a cycle that stored nothing. */
  const RETRY_SECONDS: real := 20.0

  /**
   * `time.sleep` first converts its argument to a signed 64-bit count of
   * nanoseconds (raising `OverflowError` when it does not fit), then refuses
   * a negative count (raising `ValueError`).
   */
  const MAX_SLEEP_NANOSECONDS: int := 0x7FFF_FFFF_FFFF_FFFF
  const NANOSECONDS_PER_SECOND: real := 1_000_000_000.0

  /** `interval` converts to a signed 64-bit nanosecond count. */
  predicate SleepFits(interval: real) {
    -(MAX_SLEEP_NANOSECONDS + 1) as real <= interval * NANOSECONDS_PER_SECOND <= MAX_SLEEP_NANOSECONDS as real
  }

  /** `time.sleep(interval)` returns after sleeping instead of raising. */
  predicate SleepAccepted(interval: real) {
    SleepFits(interval) && interval >= 0.0
  }

  /** `time.sleep` accepts exactly the intervals from 0 to about 292 years. */
  lemma SleepAcceptedRange(interval: real)
    ensures SleepAccepted(interval) <==> 0.0 <= interval <= MAX_SLEEP_NANOSECONDS as real / NANOSECONDS_PER_SECOND
  {
  }

  /**
   * An exception that escapes the loop: a failed conversion in `getData`,
   * or `time.sleep` refusing `interval` after a row was stored, because it
   * is out of the nanosecond range or negative.
   */
  datatype Failure = Conversion(text: string) | SleepOverflow | NegativeSleep

  /**
   * One pass of the loop: the row stored (if any), then either the sleep
   * that follows or the uncaught exception that ends the process.
   */
  datatype Step = Continue(stored: Option<Sample>, sleep: real) | Crash(stored: Option<Sample>, error: Failure)

  /** `getData`: nothing when the fetch failed, otherwise the extractor's result unchanged. */
  function GetData(fetched: Option<string>, scripts: string -> seq<Option<string>>, conv: Converters)
    : (r: Extraction)
    ensures r.NoData? <==> fetched.None? || forall j :: 0 <= j < |scripts(fetched.value)| ==> !Qualifies(scripts(fetched.value)[j])
    ensures fetched.Some? ==> r == GetValuesFromHtml(scripts(fetched.value), conv)
  {
    match fetched
    case None => NoData
    case Some(page) => GetValuesFromHtml(scripts(page), conv)
  }

  /**
   * The decision in one iteration of `main`: store the sample only when
   * there is one and its total energy is positive, then sleep `interval`
   * (which `time.sleep` refuses when out of range or negative); otherwise store nothing and
   * sleep 20 seconds. A conversion error is not caught and ends the loop.
   */
  function Decide(data: Extraction, interval: real): (s: Step)
    ensures s.stored.Some? <==> data.Data? && data.sample.totalEnergy > 0
    ensures s.stored.Some? ==> s.stored.value == data.sample
    ensures s.Crash? <==> data.ConversionError? || (s.stored.Some? && !SleepAccepted(interval))
    ensures s.Crash? ==> s.error == if data.ConversionError? then Conversion(data.text)
                                    else if !SleepFits(interval) then SleepOverflow
                                    else NegativeSleep
    ensures s.Continue? && s.stored.Some? ==> s.sleep == interval
    ensures s.Continue? && s.stored.None? ==> s.sleep == RETRY_SECONDS
  {
    match data
    case ConversionError(text) => Crash(None, Conversion(text))
    case NoData => Continue(None, RETRY_SECONDS)
    case Data(sample) =>
      if sample.totalEnergy <= 0 then Continue(None, RETRY_SECONDS)
      else if !SleepFits(interval) then Crash(Some(sample), SleepOverflow)
      else if interval < 0.0 then Crash(Some(sample), NegativeSleep)
      else Continue(Some(sample), interval)
  }

  /**
   * One whole iteration from the fetch result: a failed fetch backs off
   * for 20 seconds, and a stored row is the conversion of the first
   * qualifying script block, with a positive total.
   */
  function Cycle(fetched: Option<string>, scripts: string -> seq<Option<string>>, conv: Converters, interval: real)
    : (s: Step)
    ensures fetched.None? ==> s == Continue(None, RETRY_SECONDS)
    ensures s.stored.Some? ==>
      && fetched.Some?
      && s.stored.value.totalEnergy > 0
      && (s.Continue? <==> SleepAccepted(interval))
      && (s.Continue? ==> s.sleep == interval)
      && exists i: nat :: IsFirst(scripts(fetched.value), i)
                          && Convert(FindValues(scripts(fetched.value)[i].value).value, conv) == Data(s.stored.value)
  {
    Decide(GetData(fetched, scripts, conv), interval)
  }

  /** The rows stored by the cycles that see `results` from `getData`, in order. */
  function Stored(results: seq<Extraction>, interval: real): (rows: seq<Sample>)
    ensures |rows| <= |results|
    ensures forall k :: 0 <= k < |rows| ==> rows[k].totalEnergy > 0
  {
    if results == [] then []
    else Stored(results[..|results| - 1], interval) + StoredBy(Decide(results[|results| - 1], interval))
  }

  /** The row a step hands to `storeData`, as a sequence of zero or one rows. */
  function StoredBy(step: Step): (rows: seq<Sample>)
    ensures |rows| <= 1
  {
    if step.stored.Some? then [step.stored.value] else []
  }

  /** An `INTERVAL` of `1e10` seconds stores the first row and then ends the process. */
  lemma HugeIntervalCrashes(sample: Sample)
    requires sample.totalEnergy > 0
    ensures Decide(Data(sample), 10_000_000_000.0) == Crash(Some(sample), SleepOverflow)
  {
  }

  /** Running one more cycle appends what that cycle stores. */
  lemma StoredExtend(results: seq<Extraction>, i: nat, interval: real)
    requires i < |results|
    ensures Stored(results[..i + 1], interval) == Stored(results[..i], interval) + StoredBy(Decide(results[i], interval))
  {
    assert results[..i + 1][..i] == results[..i];
  }

  /**
   * The first `|results|` iterations of the loop, given what `getData`
   * returns in each: the rows stored, the sleeps taken, and the exception
   * if a cycle crashed (that cycle's row, if any, is stored; no later cycle
   * runs).
   */
  method PollLoop(results: seq<Extraction>, interval: real)
    returns (rows: seq<Sample>, sleeps: seq<real>, crash: Option<Failure>)
    ensures |sleeps| <= |results|
    ensures forall k :: 0 <= k < |sleeps| ==>
      Decide(results[k], interval).Continue? && sleeps[k] == Decide(results[k], interval).sleep
    ensures crash.None? <==> |sleeps| == |results|
    ensures crash.None? ==> rows == Stored(results, interval)
    ensures crash.Some? ==> Decide(results[|sleeps|], interval).Crash?
                            && Decide(results[|sleeps|], interval).error == crash.value
                            && rows == Stored(results[..|sleeps| + 1], interval)
  {
    rows, sleeps, crash := [], [], None;
    var i := 0;
    while i < |results|
      invariant i <= |results| && |sleeps| == i
      invariant rows == Stored(results[..i], interval)
      invariant forall k :: 0 <= k < i ==>
        Decide(results[k], interval).Continue? && sleeps[k] == Decide(results[k], interval).sleep
    {
      var step := Decide(results[i], interval);
      StoredExtend(results, i, interval);
      if step.stored.Some? {
        rows := rows + [step.stored.value];
      }
      if step.Crash? {
        crash := Some(step.error);
        return;
      }
      sleeps := sleeps + [step.sleep];
      i := i + 1;
    }
    assert results[..i] == results;
  }
}
