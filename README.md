# typecharter, modelled in Dafny

typecharter loads typing-test sessions, each with a UTC timestamp and a words-per-minute
(WPM) score, and plots them. Before drawing, it does five things:

1. It sorts the sessions by timestamp.
2. It averages the WPM per calendar date.
3. It lays those averages on a contiguous daily axis from the first session date to the
   last, filling the days without sessions by linear interpolation.
4. It adds centred 7-day and 30-day rolling means.
5. It picks a date format and tick locator for the x axis from a ladder of thresholds on
   the number of whole days the sessions span. It also computes the mean, maximum,
   minimum and count shown in the statistics box.

This project models those steps and proves what each one guarantees.

- `Wrappers` holds `Option` (a missing pandas value) and `Result` (a call that can raise).
- `Numeric` defines sum, mean, maximum and minimum over `real`, and the straight line
  `LinePoint` used by linear interpolation.
- `Constants` (lib/constants.py) holds:
  - the thresholds, formats, interval divisors, window sizes and column names;
  - the three rules of `get_time_configs`, with their lambdas as a `LocatorFactory` that
    fails with a `TypeError` when called with the wrong number of arguments.
- `DataProcessor` (lib/data_processor.py) holds the pipeline.
  - A timestamp is whole seconds since the epoch. Its calendar date is the floor of
    timestamp / 86400.
  - The frame that `_calculate_daily_averages` extends with a `Date` column is the class
    `SessionFrame`.
  - Every other step is a function on sequences.
- `Visualizer` (lib/visualizer.py) holds the time span, the first-match loop of
  `_format_axes` (a method with a loop), `_set_axis_locator` and the numbers of
  `_add_statistics`.
- `TypeCharter` (typecharter.py) holds the order in which `main` runs the steps.

Three facts about the code shape the model:

- A span of 0 whole days leaves the x axis alone. The last rule's threshold is 0 and the
  test is a strict `>`, so no rule matches, and there is no catch-all rule after it.
- The span is pandas' `.days` of the timestamp difference: the whole days elapsed,
  rounded down, an integer.
- There is no dedicated empty-dataset error. Sorting and `_calculate_daily_averages`
  accept an empty frame (the latter gives an empty daily frame). Every step from the full
  date range on needs at least one session: `date_range` from the minimum of an empty
  column raises. `main` returns early only when the loader gives `None`
  (typecharter.py:12-13). CSV files that have a header but no rows load without error and
  concatenate to an empty frame (lib/gui_data_loader.py:63-79). That frame reaches the
  core and raises there.

## Model

| member | source | states |
|---|---|---|
| Constants.Rolling7Column | lib/constants.py:90-99 | The 7-day column is named `WPM_7day`: the WPM column name followed by the 7-day suffix. |
| Constants.Rolling30Column | lib/constants.py:90-99 | The 30-day column is named `WPM_30day`. |
| Constants.DayInterval | lib/constants.py:118-120 | The day-locator interval is at least 1. From 30 days on it is the number of whole 30-day blocks in the span. Below 60 days it is 1. |
| Constants.HourInterval | lib/constants.py:125-127 | The hour-locator interval is at least 1. Once the span in hours (days × 24) reaches 20, the interval is the number of whole 20-hour blocks in it. Below 40 hours it is exactly 1. |
| Constants.DayIntervalMonotone | lib/constants.py:118-120 | A longer span never gets a smaller day interval. |
| Constants.HourIntervalMonotone | lib/constants.py:125-127 | A longer span never gets a smaller hour interval. |
| Constants.CallLocator | lib/constants.py:113-127 | Calling a rule's lambda succeeds exactly when it is given as many arguments as it takes. A locator built this way has an interval of at least 1. |
| Constants.TimeConfigs | lib/constants.py:108-129 | There are three rules, with strictly decreasing thresholds 365, 30 and 0. Their formats are `%Y-%m`, `%m/%d` and `%m/%d %H:%M`. Their lambdas take 0, 1 and 1 arguments. They build a 2-month locator, a day locator with `DayInterval(span)` and an hour locator with `HourInterval(span)`. |
| Numeric.Max | lib/visualizer.py:106 | The maximum is one of the values and no value exceeds it. |
| Numeric.Min | lib/visualizer.py:107 | The minimum is one of the values and no value is below it. |
| Numeric.MeanBetweenExtremes | lib/visualizer.py:105-107 | The mean of a non-empty column lies between its minimum and its maximum. |
| Numeric.LinePointEnds | lib/data_processor.py:76 | The interpolation line passes through both observed end values. |
| Numeric.LinePointEvenSteps | lib/data_processor.py:76 | When the right end is `a + step * width`, the line at offset k is `a + step * k`: evenly spaced values. |
| Numeric.LinearStepBetween | lib/data_processor.py:76 | Strictly inside its width, the line stays between its two end values. |
| DataProcessor.CalendarDate | lib/data_processor.py:46-48 | `.dt.date`: the day number whose 86400-second interval contains the timestamp. |
| DataProcessor.InsertByTimestamp | lib/data_processor.py:13 | Inserting a session into timestamp-sorted rows keeps them sorted and adds exactly that session. |
| DataProcessor.SortByTimestamp | lib/data_processor.py:13 | `sort_values` gives rows sorted by timestamp that are a permutation of the input. |
| DataProcessor.SortIdempotent | lib/data_processor.py:13 | Sorting rows that are already sorted returns the same timestamp column. When no two timestamps are equal, it returns the rows themselves. Rows that share a timestamp may come back in another order. |
| DataProcessor.SortedPermutationsAgreeOnTimestamps | lib/data_processor.py:13 | Any two sorted permutations of the same rows have the same timestamp column, so the order chosen among equal timestamps cannot change the timestamps. |
| DataProcessor.SumWpmsPermutation | lib/visualizer.py:105 | Reordering the rows leaves the total of the WPM column unchanged. |
| DataProcessor.WpmOn | lib/data_processor.py:49-53 | The group of one date is non-empty exactly when some session falls on that date. |
| DataProcessor.WpmOnComesFromDate | lib/data_processor.py:49-53 | Every value in a date's group is the WPM of a session on that date. |
| DataProcessor.SessionInItsGroup | lib/data_processor.py:46-53 | Every session's WPM is in the group of its own calendar date: the converse of `WpmOnComesFromDate`. |
| DataProcessor.WpmOnAppend | lib/data_processor.py:49-53 | The group of a date over concatenated rows is the concatenation of the two groups. |
| DataProcessor.WpmOnPermutation | lib/data_processor.py:49-53 | Reordering the rows leaves each date's group size and group total unchanged. |
| DataProcessor.DistinctDates | lib/data_processor.py:49-55 | The group keys are strictly increasing and are exactly the session dates. |
| DataProcessor.DailyAverages | lib/data_processor.py:45-59 | This is one row per session date, in strictly increasing date order. Each date's value is the mean WPM of that date's sessions. The result is empty exactly when there are no sessions. |
| DataProcessor.DailyAveragesIgnoreOrder | lib/data_processor.py:45-59 | Rows that are permutations of each other give identical daily averages. |
| DataProcessor.MinDate | lib/data_processor.py:64 | The start of the range is an observed date and no observed date precedes it. |
| DataProcessor.MaxDate | lib/data_processor.py:65 | The end of the range is an observed date and no observed date follows it. |
| DataProcessor.FullDateRange | lib/data_processor.py:62-67 | `date_range(min, max, freq="D")` is a non-empty run of consecutive days from the earliest observed date to the latest, and it contains every observed date. |
| DataProcessor.FullDateRangeLength | lib/data_processor.py:62-67 | The range holds max − min + 1 days. A single observed date gives a one-day range. |
| DataProcessor.Lookup | lib/data_processor.py:75 | `reindex` finds a value for a date exactly when a daily average has that date, and the value it finds is that average. |
| DataProcessor.PrevObserved | lib/data_processor.py:76 | This is the nearest observed position before a given one: no observed position lies between them. |
| DataProcessor.NextObserved | lib/data_processor.py:76 | This is the nearest observed position after a given one: no observed position lies between them. |
| DataProcessor.GapValueBetween | lib/data_processor.py:76 | A filled value lies between the observed values that bracket it. |
| DataProcessor.InterpolateMissingDates | lib/data_processor.py:70-83 | The series has one point per day of the range, with that day's date. Observed dates keep their daily average exactly. Each missing date is an interior point whose value lies between the nearest observed values on either side. |
| DataProcessor.PiecewiseLinear | lib/data_processor.py:76 | Between two consecutive observed positions, the interpolated series (`InterpolateMissingDates`) is the straight line through their values, counting positions along the axis. At the two ends it is the observed values themselves. |
| DataProcessor.GapIsDayWeighted | lib/data_processor.py:73-77 | On the contiguous daily axis, positions count days. A gap's value in the interpolated series is therefore the line through its nearest observed neighbours, weighted by the days elapsed since the previous observed date over the days between the two observed dates. |
| DataProcessor.GapBetweenNeighbours | lib/data_processor.py:73-77 | Every missing day has observed neighbours on both sides with only missing days between them, and its filled value lies between theirs. |
| DataProcessor.EvenlySpacedFillExample | lib/data_processor.py:70-83 | Averages 10 on day 0 and 50 on day 4 fill to five days with values 10, 20, 30, 40, 50. |
| DataProcessor.RollingMean | lib/data_processor.py:32-33 | A centred window of size w at position i has a value exactly when `i - w/2 .. i + (w-1)/2` lies inside the series (pandas' default `min_periods`). The value is the mean of those w values, between their minimum and maximum. |
| DataProcessor.AddRollingAverages | lib/data_processor.py:26-42 | This keeps each date and WPM and adds two columns. The 7-day mean is present exactly at positions 3 to n−4, where it is the mean of positions i−3..i+3. The 30-day mean is present exactly at positions 15 to n−15, where it is the mean of positions i−15..i+14. |
| DataProcessor.ShortSeriesHasNoRollingValues | lib/data_processor.py:28-41 | A series shorter than 7 days has no 7-day value anywhere. A series shorter than 30 days has no 30-day value anywhere. |
| DataProcessor.RollingOfSteadySeries | lib/data_processor.py:28-41 | On a series with a constant WPM, every rolling value present equals that constant. |
| DataProcessor.ObservedIffSessions | lib/data_processor.py:49-55 | A date has a daily average exactly when some session falls on it. |
| DataProcessor.DailyAveragesFitTheirRange | lib/data_processor.py:17-23 | For non-empty sessions, the daily averages have unique dates, and the first and last days of their range are observed. |
| DataProcessor.DailySeries | lib/data_processor.py:17-23 | `create_daily_averages` gives consecutive days from the first session date to the last, covering every session date. Each session date carries the mean WPM of its sessions. |
| DataProcessor.RangeSpansSessionDates | lib/data_processor.py:62-67 | The range built from the sessions starts and ends on session dates and encloses all of them. |
| DataProcessor.ObservedDaysKeepTheirMeans | lib/data_processor.py:70-83 | After reindexing and interpolation, every session date still holds its mean WPM. |
| DataProcessor.DailySeriesGap | lib/data_processor.py:17-23 | A day without sessions lies strictly between two session days with no session day between them, and its value lies between theirs. |
| DataProcessor.DailySeriesIgnoresOrder | lib/data_processor.py:13-23 | The daily series computed after the sort is the one the unsorted rows would give. |
| DataProcessor.SingleDateDataset | lib/data_processor.py:17-42 | Sessions that all fall on one date give a one-point series with neither rolling value. |
| DataProcessor.SessionFrame.constructor | lib/data_processor.py:9 | The copied frame holds the given rows and no `Date` column yet. |
| DataProcessor.SessionFrame.CalculateDailyAverages | lib/data_processor.py:45-59 | This adds the `Date` column (the calendar date of each row) to the frame it was given and returns the daily averages of its rows. |
| DataProcessor.SessionFrame.CreateDailyAverages | lib/data_processor.py:17-23 | This leaves the `Date` column on the frame and returns the daily series of its rows. |
| DataProcessor.PrepareData | lib/data_processor.py:8-14 | This returns a new frame holding the rows sorted by timestamp, so the caller's frame is untouched. |
| Visualizer.MinTimestamp | lib/visualizer.py:87 | The earliest timestamp is one of the rows' and no row is earlier. |
| Visualizer.MaxTimestamp | lib/visualizer.py:86 | The latest timestamp is one of the rows' and no row is later. |
| Visualizer.TimeSpan | lib/visualizer.py:85-88 | `(max - min).days` is the number of whole days in the elapsed time, and it is 0 exactly when less than a day elapsed. |
| Visualizer.SpanVersusCalendarDates | lib/visualizer.py:85-88 | The span equals the difference between the last and first calendar dates, or is one less. |
| Visualizer.AdjacentDatesSpanZero | lib/visualizer.py:85-88 | Two sessions two seconds apart across midnight fall on different dates yet span 0 days. |
| Visualizer.SpanVersusSeriesLength | lib/visualizer.py:85-88 | The daily series holds span + 1 or span + 2 days. |
| Visualizer.SeriesRunsFromFirstToLastSession | lib/data_processor.py:62-67 | The daily series starts on the date of the earliest timestamp and ends on the date of the latest one. |
| Visualizer.LocatorArgs | lib/visualizer.py:98-102 | The span is passed exactly when the threshold is 0 or 30. Otherwise nothing is passed. |
| Visualizer.SetAxisLocator | lib/visualizer.py:98-102 | Setting the locator succeeds exactly when the arguments passed match the lambda's arity. A locator set this way has an interval of at least 1. |
| Visualizer.LadderCallsNeverFail | lib/visualizer.py:98-102 | For any span, each of the three rules gets the arguments its lambda takes, and each call builds its locator: a 2-month, a `DayInterval` or an `HourInterval` locator. |
| Visualizer.FirstMatch | lib/visualizer.py:91-95 | This is the first rule whose threshold the span strictly exceeds: no earlier rule matches. |
| Visualizer.AxisDecisionFor | lib/visualizer.py:91-95 | The axis is left unchanged exactly when the span exceeds no threshold. Otherwise the decision succeeds exactly when the first matching rule's locator call succeeds, and it then holds that rule's format and locator. |
| Visualizer.FormatAxes | lib/visualizer.py:84-96 | The loop takes the decision of the first-match rule for the frame's span, and that decision never raises. |
| Visualizer.LadderBands | lib/visualizer.py:91-95 | More than 365 days gives `%Y-%m` with a 2-month locator. 31 to 365 days gives `%m/%d` with a day locator. 1 to 30 days gives `%m/%d %H:%M` with an hour locator. 0 days leaves the axis unchanged. |
| Visualizer.AddStatistics | lib/visualizer.py:104-111 | The statistics are the count of rows and the mean of the WPM column. Their maximum and minimum are WPM values of some row and bound every row's WPM. The mean lies between them. |
| Visualizer.StatisticsIgnoreOrder | lib/visualizer.py:104-111 | The sorted frame has the same statistics and the same time span as the rows as loaded. |
| Visualizer.PermutedRowsSameStatistics | lib/visualizer.py:104-111 | Rows that are permutations of each other have the same length and give the same statistics. |
| Visualizer.SameRowsSameTimeSpan | lib/visualizer.py:85-88 | Rows that are permutations of each other have the same length and span the same number of days. |
| TypeCharter.RunPipeline | typecharter.py:15-18 | `main` runs the steps in order. It prepares a new sorted frame and leaves the `Date` column on it. The plot receives the rolling means of the frame's daily series, the first-match axis decision for the frame's span (which never raises) and the frame's statistics. |
| TypeCharter.SortingKeepsWhatThePlotShows | typecharter.py:15-18 | Sorting first changes neither the daily series, nor the span the axis is chosen from, nor the statistics. |

## Left out

- DataProcessor.InterpolateMissingDates: requires both ends of the target range to be observed. pandas would leave leading gaps as NaN and fill trailing gaps with the last value. Its only caller passes the range from the minimum to the maximum observed date, whose ends are always observed. It also requires unique dates (`UniqueDates`). `reindex` raises a ValueError on duplicate labels, and that error path is not modelled. The daily averages it receives never repeat a date (`DailyAveragesFitTheirRange`).
- Parsing by `pd.to_datetime` is not modelled. Timestamps arrive as whole seconds since the epoch in UTC, and sub-second precision is dropped.
- Floating point: WPM values and means are exact reals, not IEEE doubles. A NaN produced by `rolling` is `None`.
- The order among sessions with equal timestamps after `sort_values` is not modelled. pandas' default sort is not stable. The model sorts by insertion, and its contracts promise only what any tie order keeps: "sorted and a permutation", the same timestamp column for every such order, and the same downstream results. `SortIdempotent` promises the rows back unchanged only when no two timestamps are equal.
- Extra CSV columns and the datetime64 type of the `Date` column are not modelled. Dates are day numbers.
- Every step from the full date range on (`DailySeries`, `SessionFrame.CreateDailyAverages`, `TimeSpan`, `FormatAxes`, `AddStatistics`, `RunPipeline`) requires at least one session. On an empty frame pandas raises in `date_range` (from NaT) before the plot is drawn, so these steps have no result to model. The raise itself is not modelled.
- Drawing is not modelled. This covers the scatter, lines, legend, styling, tick rotation, the figure size, the text template of the statistics box and its `.1f` rounding, and `plt.show`. The model keeps only the values these receive.
- lib/gui_data_loader.py (file dialog, CSV reading, merging files) and `FileDialogConstants` are not part of this model. The loader is the caller's input `raw`, and its `None` result is the early return at typecharter.py:12-13.
