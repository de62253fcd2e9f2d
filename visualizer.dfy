/** The decisions of the typing-speed plot that are not drawing (lib/visualizer.py): the
    time span of the sessions, the date format and tick locator chosen from the ladder of
    rules, and the summary statistics shown in the corner of the plot. */
module Visualizer {
  import opened Wrappers
  import opened Numeric
  import opened Constants
  import opened DataProcessor

  // ---------------------------------------------------------------------------------------
  // The time span of _format_axes

  /** Earliest timestamp of a non-empty frame. */
  function MinTimestamp(rows: seq<Session>): (t: int)
    requires |rows| > 0
    ensures exists i :: 0 <= i < |rows| && rows[i].timestamp == t
    ensures forall i :: 0 <= i < |rows| ==> t <= rows[i].timestamp
  {
    if |rows| == 1 then rows[0].timestamp
    else
      var rest := MinTimestamp(rows[1..]);
      if rows[0].timestamp <= rest then rows[0].timestamp else rest
  }

  /** Latest timestamp of a non-empty frame. */
  function MaxTimestamp(rows: seq<Session>): (t: int)
    requires |rows| > 0
    ensures exists i :: 0 <= i < |rows| && rows[i].timestamp == t
    ensures forall i :: 0 <= i < |rows| ==> rows[i].timestamp <= t
  {
    if |rows| == 1 then rows[0].timestamp
    else
      var rest := MaxTimestamp(rows[1..]);
      if rows[0].timestamp >= rest then rows[0].timestamp else rest
  }

  /** `(max - min).days`: the whole days elapsed between the earliest and the latest session. */
  function TimeSpan(rows: seq<Session>): (span: nat)
    requires |rows| > 0
    ensures span * SECONDS_PER_DAY <= MaxTimestamp(rows) - MinTimestamp(rows) < (span + 1) * SECONDS_PER_DAY
    ensures span == 0 <==> MaxTimestamp(rows) - MinTimestamp(rows) < SECONDS_PER_DAY
  {
    (MaxTimestamp(rows) - MinTimestamp(rows)) / SECONDS_PER_DAY
  }

  /** The span counts elapsed days, not calendar dates: it is the difference of the first and
      last calendar dates, or one less when the last session is earlier in its day than the
      first one was in its own. */
  lemma SpanVersusCalendarDates(rows: seq<Session>)
    requires |rows| > 0
    ensures var dates := CalendarDate(MaxTimestamp(rows)) - CalendarDate(MinTimestamp(rows));
            dates - 1 <= TimeSpan(rows) <= dates
  {
    var lo, hi := MinTimestamp(rows), MaxTimestamp(rows);
    var span, dlo, dhi := TimeSpan(rows), CalendarDate(lo), CalendarDate(hi);
    assert span * SECONDS_PER_DAY <= hi - lo < (span + 1) * SECONDS_PER_DAY;
    assert dlo * SECONDS_PER_DAY <= lo < (dlo + 1) * SECONDS_PER_DAY;
    assert dhi * SECONDS_PER_DAY <= hi < (dhi + 1) * SECONDS_PER_DAY;
    assert (dhi - dlo - 1) * SECONDS_PER_DAY < hi - lo < (dhi - dlo + 1) * SECONDS_PER_DAY;
    assert (dhi - dlo - 1) * SECONDS_PER_DAY < (span + 1) * SECONDS_PER_DAY;
    assert span * SECONDS_PER_DAY < (dhi - dlo + 1) * SECONDS_PER_DAY;
  }

  /** Two sessions on adjacent calendar dates, less than a day apart, span zero days. */
  lemma AdjacentDatesSpanZero()
    ensures var rows := [Session(86399, 40.0), Session(86401, 60.0)];
            CalendarDate(rows[1].timestamp) == CalendarDate(rows[0].timestamp) + 1 && TimeSpan(rows) == 0
  {
    var rows := [Session(86399, 40.0), Session(86401, 60.0)];
    assert MinTimestamp(rows) == 86399 && MaxTimestamp(rows) == 86401;
  }

  /** The daily series has one point per calendar date from the first session to the last, so
      its length exceeds the span by one or two. */
  lemma SpanVersusSeriesLength(rows: seq<Session>)
    requires |rows| > 0
    ensures TimeSpan(rows) + 1 <= |DailySeries(rows)| <= TimeSpan(rows) + 2
  {
    SeriesRunsFromFirstToLastSession(rows);
    SpanVersusCalendarDates(rows);
  }

  /** The daily series starts on the date of the earliest session and ends on the date of
      the latest one. */
  lemma SeriesRunsFromFirstToLastSession(rows: seq<Session>)
    requires |rows| > 0
    ensures DailySeries(rows)[0].date == CalendarDate(MinTimestamp(rows))
    ensures DailySeries(rows)[|DailySeries(rows)| - 1].date == CalendarDate(MaxTimestamp(rows))
  {
    var series := DailySeries(rows);
    EarliestDateIsDateOfMin(rows, series[0].date);
    LatestDateIsDateOfMax(rows, series[|series| - 1].date);
  }

  /** The least session date is the date of the earliest timestamp. */
  lemma EarliestDateIsDateOfMin(rows: seq<Session>, first: int)
    requires |rows| > 0
    requires first in Dates(rows) && forall d :: d in Dates(rows) ==> first <= d
    ensures first == CalendarDate(MinTimestamp(rows))
  {
    var lo := MinTimestamp(rows);
    var i :| 0 <= i < |rows| && rows[i].timestamp == lo;
    assert rows[i] in rows;
    assert CalendarDate(lo) in Dates(rows);
    var r :| r in rows && CalendarDate(r.timestamp) == first;
    assert CalendarDate(lo) <= CalendarDate(r.timestamp);
  }

  /** The greatest session date is the date of the latest timestamp. */
  lemma LatestDateIsDateOfMax(rows: seq<Session>, last: int)
    requires |rows| > 0
    requires last in Dates(rows) && forall d :: d in Dates(rows) ==> d <= last
    ensures last == CalendarDate(MaxTimestamp(rows))
  {
    var hi := MaxTimestamp(rows);
    var i :| 0 <= i < |rows| && rows[i].timestamp == hi;
    assert rows[i] in rows;
    assert CalendarDate(hi) in Dates(rows);
    var r :| r in rows && CalendarDate(r.timestamp) == last;
    assert CalendarDate(r.timestamp) <= CalendarDate(hi);
  }

  // ---------------------------------------------------------------------------------------
  // _set_axis_locator and the first-match loop of _format_axes

  /** What `_format_axes` leaves on the x axis: nothing, or a date format with a tick locator. */
  datatype AxisDecision = Unchanged | Formatted(format: string, locator: Locator)

  /** Arguments `_set_axis_locator` passes to the lambda of the rule with this threshold:
      the span for thresholds 0 and `MONTHLY_THRESHOLD_DAYS`, nothing otherwise. */
  function LocatorArgs(threshold: int, span: int): (args: seq<int>)
    ensures |args| <= 1 && (|args| == 1 ==> args[0] == span)
    ensures |args| == 1 <==> threshold == 0 || threshold == MONTHLY_THRESHOLD_DAYS
  {
    if threshold == 0 || threshold == MONTHLY_THRESHOLD_DAYS then [span] else []
  }

  /** `_set_axis_locator`: the locator the rule's lambda builds, or the TypeError its call
      raises. */
  function SetAxisLocator(rule: TimeRule, span: int): (r: Result<Locator, CallError>)
    ensures r.Success? <==> |LocatorArgs(rule.threshold, span)| == Arity(rule.locator)
    ensures r.Success? ==> r.value.interval >= 1
  {
    CallLocator(rule.locator, LocatorArgs(rule.threshold, span))
  }

  /** Every rule of the ladder gets the arguments its lambda takes, whatever the span: the
      threshold `_set_axis_locator` tests is the monthly rule's own, and the yearly rule is
      the one called without arguments. */
  lemma LadderCallsNeverFail(span: int)
    ensures forall rule :: rule in TimeConfigs() ==> SetAxisLocator(rule, span).Success?
    ensures SetAxisLocator(TimeConfigs()[0], span) == Success(MonthLocator(MONTH_INTERVAL))
    ensures SetAxisLocator(TimeConfigs()[1], span) == Success(DayLocator(DayInterval(span)))
    ensures SetAxisLocator(TimeConfigs()[2], span) == Success(HourLocator(HourInterval(span)))
  {
    var rules := TimeConfigs();
    assert CallLocator(rules[1].locator, [span]) == Success(DayLocator(DayInterval(span)));
    assert CallLocator(rules[2].locator, [span]) == Success(HourLocator(HourInterval(span)));
  }

  /** Index of the first rule at or after `from` whose threshold the span strictly exceeds,
      or `|rules|` when there is none. */
  function FirstMatch(rules: seq<TimeRule>, span: int, from: nat): (k: nat)
    requires from <= |rules|
    ensures from <= k <= |rules|
    ensures k < |rules| ==> span > rules[k].threshold
    ensures forall j :: from <= j < k ==> span <= rules[j].threshold
    decreases |rules| - from
  {
    if from == |rules| then from
    else if span > rules[from].threshold then from
    else FirstMatch(rules, span, from + 1)
  }

  /** What the loop of `_format_axes` sets for a given span: the format and locator of the
      first matching rule, or nothing when no rule matches. */
  function AxisDecisionFor(rules: seq<TimeRule>, span: int): (r: Result<AxisDecision, CallError>)
    ensures r == Success(Unchanged) <==> forall rule :: rule in rules ==> span <= rule.threshold
    ensures r.Success? && r.value.Formatted? ==>
              exists k :: 0 <= k < |rules| && span > rules[k].threshold &&
                (forall j :: 0 <= j < k ==> span <= rules[j].threshold) &&
                r.value.format == rules[k].format &&
                SetAxisLocator(rules[k], span) == Success(r.value.locator)
    ensures FirstMatch(rules, span, 0) < |rules| ==>
              (r.Success? <==> SetAxisLocator(rules[FirstMatch(rules, span, 0)], span).Success?)
  {
    var k := FirstMatch(rules, span, 0);
    if k == |rules| then Success(Unchanged)
    else match SetAxisLocator(rules[k], span)
      case Failure(e) => Failure(e)
      case Success(locator) => Success(Formatted(rules[k].format, locator))
  }

  /** `_format_axes`: tries the rules in order and stops at the first one the span exceeds. */
  method FormatAxes(rows: seq<Session>) returns (decision: Result<AxisDecision, CallError>)
    requires |rows| > 0
    ensures decision == AxisDecisionFor(TimeConfigs(), TimeSpan(rows))
    ensures decision.Success?
  {
    var span := TimeSpan(rows);
    var configs := TimeConfigs();
    LadderCallsNeverFail(span);
    decision := Success(Unchanged);
    var i := 0;
    while i < |configs|
      invariant 0 <= i <= |configs|
      invariant FirstMatch(configs, span, i) == FirstMatch(configs, span, 0)
    {
      var rule := configs[i];
      if span > rule.threshold {
        var locator := SetAxisLocator(rule, span);
        assert locator.Success? by { assert rule in configs; }
        decision := Success(Formatted(rule.format, locator.value));
        break;
      }
      i := i + 1;
    }
  }

  /** The bands of the ladder: more than 365 days is yearly, 31 to 365 monthly, 1 to 30
      daily, and a span of 0 days sets neither formatter nor locator. */
  lemma LadderBands(span: int)
    ensures span > 365 ==> AxisDecisionFor(TimeConfigs(), span) == Success(Formatted("%Y-%m", MonthLocator(2)))
    ensures 30 < span <= 365 ==>
              AxisDecisionFor(TimeConfigs(), span) == Success(Formatted("%m/%d", DayLocator(DayInterval(span))))
    ensures 0 < span <= 30 ==>
              AxisDecisionFor(TimeConfigs(), span) == Success(Formatted("%m/%d %H:%M", HourLocator(HourInterval(span))))
    ensures span <= 0 ==> AxisDecisionFor(TimeConfigs(), span) == Success(Unchanged)
  {
    LadderCallsNeverFail(span);
  }

  // ---------------------------------------------------------------------------------------
  // _add_statistics

  /** The numbers of the statistics box. */
  datatype Statistics = Statistics(avgWpm: real, maxWpm: real, minWpm: real, totalSessions: nat)

  /** `_add_statistics`: mean, maximum and minimum of the WPM column, and the row count. */
  function AddStatistics(rows: seq<Session>): (stats: Statistics)
    requires |rows| > 0
    ensures stats.totalSessions == |rows|
    ensures stats.avgWpm == Mean(Wpms(rows))
    ensures stats.minWpm <= stats.avgWpm <= stats.maxWpm
    ensures exists i :: 0 <= i < |rows| && rows[i].wpm == stats.maxWpm
    ensures exists i :: 0 <= i < |rows| && rows[i].wpm == stats.minWpm
    ensures forall i :: 0 <= i < |rows| ==> stats.minWpm <= rows[i].wpm <= stats.maxWpm
  {
    var column := Wpms(rows);
    MeanBetweenExtremes(column);
    var hi, lo := Max(column), Min(column);
    assert exists i :: 0 <= i < |rows| && rows[i].wpm == hi by {
      var i :| 0 <= i < |column| && column[i] == hi;
    }
    assert exists i :: 0 <= i < |rows| && rows[i].wpm == lo by {
      var i :| 0 <= i < |column| && column[i] == lo;
    }
    assert forall i :: 0 <= i < |rows| ==> lo <= rows[i].wpm <= hi by {
      forall i | 0 <= i < |rows| ensures lo <= rows[i].wpm <= hi {
        assert column[i] in column;
      }
    }
    Statistics(Mean(column), hi, lo, |rows|)
  }

  /** The statistics of the sorted frame are those of the rows as loaded: sorting moves rows,
      it does not change the numbers, nor the time span. */
  lemma StatisticsIgnoreOrder(raw: seq<Session>)
    requires |raw| > 0
    ensures |SortByTimestamp(raw)| > 0
    ensures AddStatistics(SortByTimestamp(raw)) == AddStatistics(raw)
    ensures TimeSpan(SortByTimestamp(raw)) == TimeSpan(raw)
  {
    var sorted := SortByTimestamp(raw);
    assert |sorted| == |multiset(sorted)| == |multiset(raw)| == |raw|;
    PermutedRowsSameStatistics(raw, sorted);
    SameRowsSameTimeSpan(raw, sorted);
  }

  /** Rows that are a permutation of each other give the same statistics. */
  lemma PermutedRowsSameStatistics(a: seq<Session>, b: seq<Session>)
    requires |a| > 0 && multiset(a) == multiset(b)
    ensures |b| == |a| && AddStatistics(a) == AddStatistics(b)
  {
    assert |a| == |multiset(a)| == |multiset(b)| == |b|;
    SameRowsSameColumnValues(a, b);
    SameRowsSameColumnValues(b, a);
    SumWpmsPermutation(a, b);
    ExtremesOfSameValues(Wpms(a), Wpms(b));
    assert Mean(Wpms(a)) == Mean(Wpms(b));
  }

  /** Rows that are a permutation of each other span the same number of days. */
  lemma SameRowsSameTimeSpan(a: seq<Session>, b: seq<Session>)
    requires |a| > 0 && multiset(a) == multiset(b)
    ensures |b| == |a| && TimeSpan(a) == TimeSpan(b)
  {
    assert |a| == |multiset(a)| == |multiset(b)| == |b|;
    PermutedTimestampsWithin(a, b);
    PermutedTimestampsWithin(b, a);
  }

  /** The extreme timestamps of a are within those of any permutation of a. */
  lemma PermutedTimestampsWithin(a: seq<Session>, b: seq<Session>)
    requires |a| > 0 && |b| > 0 && multiset(a) == multiset(b)
    ensures MinTimestamp(b) <= MinTimestamp(a) && MaxTimestamp(a) <= MaxTimestamp(b)
  {
    var i :| 0 <= i < |a| && a[i].timestamp == MinTimestamp(a);
    assert a[i] in multiset(b);
    var j :| 0 <= j < |b| && b[j] == a[i];
    var k :| 0 <= k < |a| && a[k].timestamp == MaxTimestamp(a);
    assert a[k] in multiset(b);
    var l :| 0 <= l < |b| && b[l] == a[k];
  }

  /** Rows with the same multiset of sessions have the same WPM values. */
  lemma SameRowsSameColumnValues(a: seq<Session>, b: seq<Session>)
    requires multiset(a) == multiset(b)
    ensures forall x :: x in Wpms(a) ==> x in Wpms(b)
  {
    forall x | x in Wpms(a) ensures x in Wpms(b) {
      var i :| 0 <= i < |a| && Wpms(a)[i] == x;
      assert a[i] in multiset(b);
      var j :| 0 <= j < |b| && b[j] == a[i];
      assert Wpms(b)[j] == x;
    }
  }
}
