/** The order in which `main` (typecharter.py) runs the pipeline once the sessions are loaded,
    and what the plot is then handed. */
module TypeCharter {
  import opened Wrappers
  import opened Constants
  import opened DataProcessor
  import opened Visualizer

  /** What `create_plot` draws from and decides. */
  datatype ChartInputs = ChartInputs(
    smooth: seq<SmoothedPoint>,
    axis: Result<AxisDecision, CallError>,
    stats: Statistics)

  /** Prepare the frame, build the daily series, add the rolling means, then take the axis
      decision and the statistics from the prepared frame. Since the prepared rows are a
      sorted permutation of the loaded ones, SortingKeepsWhatThePlotShows lets each of these
      be read as a function of the loaded rows themselves. */
  method RunPipeline(raw: seq<Session>) returns (df: SessionFrame, chart: ChartInputs)
    requires |raw| > 0
    ensures fresh(df)
    ensures df.rows == SortByTimestamp(raw)
    ensures df.dateColumn == Some(DateColumn(df.rows))
    ensures chart.smooth == AddRollingAverages(DailySeries(df.rows))
    ensures chart.axis == AxisDecisionFor(TimeConfigs(), TimeSpan(df.rows)) && chart.axis.Success?
    ensures chart.stats == AddStatistics(df.rows)
  {
    df := PrepareData(raw);
    var series := df.CreateDailyAverages();
    var smooth := AddRollingAverages(series);
    var axis := FormatAxes(df.rows);
    var stats := AddStatistics(df.rows);
    chart := ChartInputs(smooth, axis, stats);
  }

  /** Sorting the sessions first changes neither the daily series, nor the span the axis is
      chosen from, nor the statistics. */
  lemma SortingKeepsWhatThePlotShows(raw: seq<Session>)
    requires |raw| > 0
    ensures |SortByTimestamp(raw)| > 0
    ensures DailySeries(SortByTimestamp(raw)) == DailySeries(raw)
    ensures TimeSpan(SortByTimestamp(raw)) == TimeSpan(raw)
    ensures AddStatistics(SortByTimestamp(raw)) == AddStatistics(raw)
  {
    DailySeriesIgnoresOrder(raw);
    StatisticsIgnoreOrder(raw);
  }
}
