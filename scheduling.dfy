/**
 * `compute_next_run`: the next due time of a task from its schedule. Time is an integer
 * number of milliseconds; the cron library's next-occurrence function and the ISO-8601
 * formatter are parameters (a `Calendar`).
 */
module Scheduling {
  import opened Wrappers
  import opened Text
  import opened Models

  /** The exceptions `compute_next_run` lets escape. */
  datatype ScheduleError =
    | BadCronExpression(expression: string)  // the cron library rejects the expression
    | BadInterval(value: string)             // `int()` rejects the interval

  /**
   * The library calls the calculator makes: the first cron occurrence strictly after a base
   * time (None for an expression the library rejects), and `isoformat()` of a time.
   */
  datatype Calendar = Calendar(cronNext: (string, int) -> Option<int>, iso: int -> string)

  /** The recurring schedule types, the only ones whose next run is ever recomputed. */
  predicate IsRecurring(scheduleType: string) {
    scheduleType == CRON || scheduleType == INTERVAL
  }

  /**
   * The next run of a schedule, from `base`, or from `now` when no base is given. An `Err`
   * is the exception the call raises; `Ok(None)` means the task will not run again.
   */
  function ComputeNextRun(scheduleType: string, scheduleValue: string, base: Option<int>,
                          now: int, cal: Calendar): (r: Result<Option<string>, ScheduleError>)
    ensures scheduleType == ONCE ==> r == Ok(Some(scheduleValue))
    ensures r.Err? ==> IsRecurring(scheduleType)
    ensures r == Ok(None) <==> scheduleType !in {CRON, INTERVAL, ONCE}
    ensures IsRecurring(scheduleType) && r.Ok? ==> r.value.Some?
  {
    var from := if base.Some? then base.value else now;
    if scheduleType == CRON then
      match cal.cronNext(scheduleValue, from)
      case None => Err(BadCronExpression(scheduleValue))
      case Some(t) => Ok(Some(cal.iso(t)))
    else if scheduleType == INTERVAL then
      match ParseInt(scheduleValue)
      case None => Err(BadInterval(scheduleValue))
      case Some(ms) => Ok(Some(cal.iso(from + ms)))
    else if scheduleType == ONCE then
      Ok(Some(scheduleValue))
    else
      Ok(None)
  }

  /** An interval written as a decimal number of milliseconds lands exactly that far after the base. */
  lemma IntervalAddsMilliseconds(ms: int, base: int, now: int, cal: Calendar)
    ensures ComputeNextRun(INTERVAL, FormatInt(ms), Some(base), now, cal) == Ok(Some(cal.iso(base + ms)))
  {
    var v := FormatInt(ms);
    ParseFormatInt(ms);
    assert INTERVAL != CRON;
    IntervalParses(v, ms, base, now, cal);
  }

  lemma IntervalParses(v: string, ms: int, base: int, now: int, cal: Calendar)
    requires ParseInt(v) == Some(ms)
    ensures ComputeNextRun(INTERVAL, v, Some(base), now, cal) == Ok(Some(cal.iso(base + ms)))
  {
    assert INTERVAL != CRON;
  }

  /** An interval that is not an integer makes the call raise. */
  lemma IntervalNeedsInteger(value: string, base: Option<int>, now: int, cal: Calendar)
    requires forall k :: 0 <= k < |value| ==> !IsDigit(value[k])
    ensures ComputeNextRun(INTERVAL, value, base, now, cal) == Err(BadInterval(value))
  {
    if ParseInt(value).Some? {
      ParseIntNeedsDigit(value);
    }
  }

  /** A cron schedule's next run is the formatted next occurrence after the base, or an error. */
  lemma CronUsesNextOccurrence(expression: string, base: int, now: int, cal: Calendar)
    ensures var r := ComputeNextRun(CRON, expression, Some(base), now, cal);
      match cal.cronNext(expression, base)
      case None => r == Err(BadCronExpression(expression))
      case Some(t) => r == Ok(Some(cal.iso(t)))
  {
  }

  /**
   * A cron schedule's next run depends only on the expression and the base: any two calendars
   * that agree on that occurrence and on its formatting give the same result.
   */
  lemma CronDependsOnExpressionAndBase(expression: string, base: int, now1: int, now2: int,
                                       cal1: Calendar, cal2: Calendar)
    requires cal1.cronNext(expression, base) == cal2.cronNext(expression, base)
    requires cal1.cronNext(expression, base).Some? ==>
               cal1.iso(cal1.cronNext(expression, base).value) == cal2.iso(cal1.cronNext(expression, base).value)
    ensures ComputeNextRun(CRON, expression, Some(base), now1, cal1)
         == ComputeNextRun(CRON, expression, Some(base), now2, cal2)
  {
  }

  /** A one-off task keeps its fixed time whatever the base and the clock. */
  lemma OnceIgnoresBase(value: string, base1: Option<int>, base2: Option<int>, now1: int, now2: int,
                        cal1: Calendar, cal2: Calendar)
    ensures ComputeNextRun(ONCE, value, base1, now1, cal1) == ComputeNextRun(ONCE, value, base2, now2, cal2)
  {
  }

  /** Omitting the base is the same as passing the current time. */
  lemma DefaultBaseIsNow(scheduleType: string, value: string, now: int, other: int, cal: Calendar)
    ensures ComputeNextRun(scheduleType, value, None, now, cal)
         == ComputeNextRun(scheduleType, value, Some(now), other, cal)
  {
  }
}
