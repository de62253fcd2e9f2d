/** The constants of the pipeline and the axis-granularity ladder (lib/constants.py).
    Styling, dialog texts and the statistics text template are not modelled. */
module Constants {
  import opened Wrappers

  // Time formatting thresholds and date formats (PlotConstants)
  const YEARLY_THRESHOLD_DAYS: int := 365
  const MONTHLY_THRESHOLD_DAYS: int := 30
  const MONTH_INTERVAL: int := 2
  const DAILY_DIVISOR: int := 30
  const HOURLY_DIVISOR: int := 20
  const YEARLY_FORMAT: string := "%Y-%m"
  const MONTHLY_FORMAT: string := "%m/%d"
  const DAILY_FORMAT: string := "%m/%d %H:%M"

  // Column names, rolling windows and their suffixes (DataProcessorConstants)
  const DATETIME_COLUMN: string := "Date/Time (UTC)"
  const WPM_COLUMN: string := "WPM"
  const DATE_COLUMN: string := "Date"
  const ROLLING_7_DAYS: nat := 7
  const ROLLING_30_DAYS: nat := 30
  const ROLLING_7_SUFFIX: string := "_7day"
  const ROLLING_30_SUFFIX: string := "_30day"

  /** Name of the column that holds the 7-day rolling mean. */
  function Rolling7Column(): (name: string)
    ensures name == "WPM_7day"
  {
    WPM_COLUMN + ROLLING_7_SUFFIX
  }

  /** Name of the column that holds the 30-day rolling mean. */
  function Rolling30Column(): (name: string)
    ensures name == "WPM_30day"
  {
    WPM_COLUMN + ROLLING_30_SUFFIX
  }

  /** A tick locator of the date axis, with its interval. */
  datatype Locator = MonthLocator(interval: int) | DayLocator(interval: int) | HourLocator(interval: int)

  /** Raised when a locator lambda is called with the wrong number of arguments. */
  datatype CallError = TypeError

  /** The three locator lambdas of the ladder: the monthly one takes no argument, the
      other two take the time span in days. */
  datatype LocatorFactory = MonthLocatorEvery2 | DayLocatorBySpan | HourLocatorBySpan

  /** One rung of the ladder: a strict lower bound on the span, a date format and a locator lambda. */
  datatype TimeRule = TimeRule(threshold: int, format: string, locator: LocatorFactory)

  /** Number of arguments the lambda takes. */
  function Arity(f: LocatorFactory): nat
  {
    if f == MonthLocatorEvery2 then 0 else 1
  }

  /** Day-tick interval for a span: `max(1, span // DAILY_DIVISOR)`. */
  function DayInterval(span: int): (k: int)
    ensures k >= 1
    ensures span >= DAILY_DIVISOR ==> k * DAILY_DIVISOR <= span < (k + 1) * DAILY_DIVISOR
    ensures span < 2 * DAILY_DIVISOR ==> k == 1
  {
    if span / DAILY_DIVISOR > 1 then span / DAILY_DIVISOR else 1
  }

  /** Hour-tick interval for a span: `max(1, span * 24 // HOURLY_DIVISOR)`. */
  function HourInterval(span: int): (k: int)
    ensures k >= 1
    ensures span * 24 >= HOURLY_DIVISOR ==> k * HOURLY_DIVISOR <= span * 24 < (k + 1) * HOURLY_DIVISOR
    ensures span * 24 < 2 * HOURLY_DIVISOR ==> k == 1
  {
    if span * 24 / HOURLY_DIVISOR > 1 then span * 24 / HOURLY_DIVISOR else 1
  }

  /** A wider span never gives a denser day-tick interval. */
  lemma DayIntervalMonotone(a: int, b: int)
    requires a <= b
    ensures DayInterval(a) <= DayInterval(b)
  {
  }

  /** A wider span never gives a denser hour-tick interval. */
  lemma HourIntervalMonotone(a: int, b: int)
    requires a <= b
    ensures HourInterval(a) <= HourInterval(b)
  {
  }

  /** Calling a locator lambda: a wrong number of arguments raises TypeError. */
  function CallLocator(f: LocatorFactory, args: seq<int>): (r: Result<Locator, CallError>)
    ensures r.Success? <==> |args| == Arity(f)
    ensures r.Success? ==> r.value.interval >= 1
  {
    if |args| != Arity(f) then Failure(TypeError)
    else match f
      case MonthLocatorEvery2 => Success(MonthLocator(MONTH_INTERVAL))
      case DayLocatorBySpan => Success(DayLocator(DayInterval(args[0])))
      case HourLocatorBySpan => Success(HourLocator(HourInterval(args[0])))
  }

  /** The ladder of `TimeFormatConfig.get_time_configs`, tried in this order. */
  function TimeConfigs(): (rules: seq<TimeRule>)
    ensures |rules| == 3
    ensures forall i, j :: 0 <= i < j < |rules| ==> rules[i].threshold > rules[j].threshold
    ensures rules[0].threshold == YEARLY_THRESHOLD_DAYS && rules[1].threshold == MONTHLY_THRESHOLD_DAYS
    ensures rules[2].threshold == 0
    ensures rules[0].format == "%Y-%m" && rules[1].format == "%m/%d" && rules[2].format == "%m/%d %H:%M"
    ensures Arity(rules[0].locator) == 0 && Arity(rules[1].locator) == 1 && Arity(rules[2].locator) == 1
    ensures CallLocator(rules[0].locator, []) == Success(MonthLocator(2))
    ensures forall span: int :: CallLocator(rules[1].locator, [span]) == Success(DayLocator(DayInterval(span)))
    ensures forall span: int :: CallLocator(rules[2].locator, [span]) == Success(HourLocator(HourInterval(span)))
  {
    [
      TimeRule(YEARLY_THRESHOLD_DAYS, YEARLY_FORMAT, MonthLocatorEvery2),
      TimeRule(MONTHLY_THRESHOLD_DAYS, MONTHLY_FORMAT, DayLocatorBySpan),
      TimeRule(0, DAILY_FORMAT, HourLocatorBySpan)
    ]
  }
}
