/** The analytics page's view-model: the window of the sales-prediction
    chart, the predicted-revenue cards, the seasonal chart, which tab is
    rendered, and the guard and order in which `analyzeData` stores the
    analysis results. The analyses themselves are not part of this model:
    their results come in as values. */
module Analytics {
  import opened Basics
  import opened Text

  /** One entry of the prediction series: a day, its revenue, and whether
      the revenue is predicted or observed. */
  datatype PredictionEntry = PredictionEntry(date: Time, total: Money, predicted: bool)

  const ChartDays: nat := 7

  /** The chart is either the placeholder object
      `{labels: [], datasets: [{data: []}]}` or a list of points. */
  datatype PredictionChart = Placeholder | Points(points: seq<PredictionEntry>)

  function IsPredicted(e: PredictionEntry): bool
  {
    e.predicted
  }

  function IsObserved(e: PredictionEntry): bool
  {
    !e.predicted
  }

  function Revenue(e: PredictionEntry): int
  {
    e.total
  }

  function Historical(series: seq<PredictionEntry>): seq<PredictionEntry>
  {
    TakeLast(Filter(series, IsObserved), ChartDays)
  }

  function Forecast(series: seq<PredictionEntry>): seq<PredictionEntry>
  {
    Take(Filter(series, IsPredicted), ChartDays)
  }

  /** `getSalesPredictionChartData`: the placeholder for a missing or empty
      series; otherwise the last seven observed entries followed by the
      first seven predicted ones. */
  function PredictionChartData(series: Option<seq<PredictionEntry>>): PredictionChart
  {
    if series.None? || |series.value| == 0 then Placeholder
    else Points(Historical(series.value) + Forecast(series.value))
  }

  /** The tab draws the chart when `chartData.length > 0`; the placeholder
      object has no length, so it shows the no-data message. */
  predicate ChartShown(c: PredictionChart)
  {
    c.Points? && |c.points| > 0
  }

  /** The chart holds at most fourteen points: first observed entries, the
      latest of them in series order, then predicted ones, the earliest in
      series order. */
  lemma ChartWindow(series: seq<PredictionEntry>)
    requires |series| > 0
    ensures var c := PredictionChartData(Some(series));
      && c.Points?
      && |c.points| <= 2 * ChartDays
      && c.points == Historical(series) + Forecast(series)
      && (forall i :: 0 <= i < |Historical(series)| ==> !c.points[i].predicted && c.points[i] in series)
      && (forall i :: |Historical(series)| <= i < |c.points| ==> c.points[i].predicted && c.points[i] in series)
      && Historical(series) == TakeLast(Filter(series, IsObserved), ChartDays)
      && Forecast(series) == Take(Filter(series, IsPredicted), ChartDays)
  {
    var h := Historical(series);
    var f := Forecast(series);
    HistoricalEntries(series);
    ForecastEntries(series);
    var p := h + f;
    assert PredictionChartData(Some(series)) == Points(p);
    forall i | |h| <= i < |p|
      ensures p[i] == f[i - |h|]
    {
    }
  }

  lemma HistoricalEntries(series: seq<PredictionEntry>)
    ensures forall i :: 0 <= i < |Historical(series)| ==> !Historical(series)[i].predicted && Historical(series)[i] in series
  {
    var h := Historical(series);
    var obs := Filter(series, IsObserved);
    forall i | 0 <= i < |h|
      ensures !h[i].predicted && h[i] in series
    {
      assert h[i] == obs[|obs| - |h| + i];
    }
  }

  lemma ForecastEntries(series: seq<PredictionEntry>)
    ensures forall i :: 0 <= i < |Forecast(series)| ==> Forecast(series)[i].predicted && Forecast(series)[i] in series
  {
    var f := Forecast(series);
    var pre := Filter(series, IsPredicted);
    forall i | 0 <= i < |f|
      ensures f[i].predicted && f[i] in series
    {
      assert f[i] == pre[i];
    }
  }

  /** The chart is drawn exactly when the series holds an entry. */
  lemma ChartShownIffSeries(series: Option<seq<PredictionEntry>>)
    ensures ChartShown(PredictionChartData(series)) <==> series.Some? && |series.value| > 0
  {
    if series.Some? && |series.value| > 0 {
      var s := series.value;
      var e := s[0];
      if e.predicted {
        FilterMembership(s, IsPredicted);
        assert e in Filter(s, IsPredicted);
        assert |Forecast(s)| > 0;
      } else {
        FilterMembership(s, IsObserved);
        assert e in Filter(s, IsObserved);
        assert |Historical(s)| > 0;
      }
    }
  }

  /** `getTotalPredictions`: the revenue of every predicted entry of the
      series, 0 for a missing or empty one. */
  function TotalPredictions(series: Option<seq<PredictionEntry>>): Money
  {
    if series.None? || |series.value| == 0 then 0
    else SumOf(Filter(series.value, IsPredicted), Revenue)
  }

  /** The card titled 'next 7 days' as written adds every predicted entry,
      however many the series holds: with more than seven predicted entries
      of positive revenue it shows more than the seven days the chart
      draws. */
  lemma TotalPredictionsAsWritten(series: seq<PredictionEntry>)
    requires |Filter(series, IsPredicted)| > ChartDays
    requires forall e :: e in series && e.predicted ==> e.total > 0
    ensures TotalPredictions(Some(series)) > SumOf(Forecast(series), Revenue)
  {
    var pre := Filter(series, IsPredicted);
    var rest := pre[ChartDays..];
    assert pre == Forecast(series) + rest;
    SumOfConcat(Forecast(series), rest, Revenue);
    assert rest[0] in pre;
    assert rest[1..] == pre[ChartDays + 1..];
    forall x | x in rest[1..]
      ensures Revenue(x) >= 0
    {
      assert x in pre;
    }
    SumOfNonNegative(rest[1..], Revenue);
  }

  /** The revenue the 'next 7 days' card is meant to show: the predicted
      points the chart draws. */
  function WeekPredictions(series: Option<seq<PredictionEntry>>): Money
  {
    if series.None? || |series.value| == 0 then 0
    else SumOf(Forecast(series.value), Revenue)
  }

  /** The week's total is the revenue of the predicted points of the chart
      and of nothing else. */
  lemma WeekPredictionsMatchChart(series: seq<PredictionEntry>)
    requires |series| > 0
    ensures WeekPredictions(Some(series)) == SumOf(Filter(PredictionChartData(Some(series)).points, IsPredicted), Revenue)
  {
    var h := Historical(series);
    var f := Forecast(series);
    assert PredictionChartData(Some(series)).points == h + f;
    FilterConcat(h, f, IsPredicted);
    HistoricalNotPredicted(series);
    ForecastPredicted(series);
    assert Filter(h + f, IsPredicted) == [] + f;
    assert [] + f == f;
  }

  /** The week's total agrees with the as-written total when the series
      predicts at most seven entries. */
  lemma WeekPredictionsWithinSeven(series: seq<PredictionEntry>)
    requires |Filter(series, IsPredicted)| <= ChartDays
    ensures WeekPredictions(Some(series)) == TotalPredictions(Some(series))
  {
    var pre := Filter(series, IsPredicted);
    assert Forecast(series) == pre;
  }

  lemma HistoricalNotPredicted(series: seq<PredictionEntry>)
    ensures Filter(Historical(series), IsPredicted) == []
  {
    var obs := Filter(series, IsObserved);
    var h := TakeLast(obs, ChartDays);
    assert h == Historical(series);
    forall j | 0 <= j < |h|
      ensures !IsPredicted(h[j])
    {
      assert h[j] == obs[|obs| - |h| + j];
    }
    FilterNone(h, IsPredicted);
  }

  lemma ForecastPredicted(series: seq<PredictionEntry>)
    ensures Filter(Forecast(series), IsPredicted) == Forecast(series)
  {
    var f := Forecast(series);
    var pre := Filter(series, IsPredicted);
    forall x | x in f
      ensures IsPredicted(x)
    {
      var i :| 0 <= i < |f| && f[i] == x;
      assert f[i] == pre[i];
    }
    FilterAll(f, IsPredicted);
  }

  /** The 'daily sales' card: the week's total over seven days. */
  function DailyAverage(total: Money): real
  {
    total as real / ChartDays as real
  }

  /** Seven days at the average make up the total again. */
  lemma DailyAverageTimesSeven(total: Money)
    ensures DailyAverage(total) * 7.0 == total as real
    ensures total >= 0 ==> 0.0 <= DailyAverage(total) <= total as real
  {
  }

  /** The two prediction cards: the forecast total and a seventh of it. */
  datatype PredictionCards = PredictionCards(forecast: Money, daily: real)

  /** The cards as the page draws them, from `getTotalPredictions`: they
      agree with the week the chart draws only while the series predicts at
      most seven entries. */
  function Cards(series: Option<seq<PredictionEntry>>): (r: PredictionCards)
    ensures r.daily * 7.0 == r.forecast as real
    ensures r.forecast == TotalPredictions(series)
    ensures series.Some? && |Filter(series.value, IsPredicted)| <= ChartDays ==> r.forecast == WeekPredictions(series)
  {
    var t := TotalPredictions(series);
    DailyAverageTimesSeven(t);
    if series.Some? && |Filter(series.value, IsPredicted)| <= ChartDays then
      WeekPredictionsWithinSeven(series.value);
      PredictionCards(t, DailyAverage(t))
    else
      PredictionCards(t, DailyAverage(t))
  }

  /** The cards with the forecast made the week the chart draws: the
      forecast card is the revenue of exactly the chart's predicted points. */
  function WeekCards(series: Option<seq<PredictionEntry>>): (r: PredictionCards)
    ensures r.daily * 7.0 == r.forecast as real
    ensures series.Some? && |series.value| > 0 ==>
      r.forecast == SumOf(Filter(PredictionChartData(series).points, IsPredicted), Revenue)
    ensures series.None? ==> r.forecast == 0
  {
    var w := WeekPredictions(series);
    DailyAverageTimesSeven(w);
    if series.Some? && |series.value| > 0 then
      WeekPredictionsMatchChart(series.value);
      PredictionCards(w, DailyAverage(w))
    else
      PredictionCards(w, DailyAverage(w))
  }

  /** One day of the seasonal analysis. */
  datatype DayPattern = DayPattern(dayName: string, total: Money)

  datatype SeasonalPatterns = SeasonalPatterns(byDayOfWeek: Option<seq<DayPattern>>)

  datatype SeasonalPoint = SeasonalPoint(name: string, value: Money)

  const DayNameLength: nat := 3

  function SeasonalPointOf(d: DayPattern): SeasonalPoint
  {
    SeasonalPoint(Prefix(d.dayName, DayNameLength), d.total)
  }

  function SeasonalPoints(days: seq<DayPattern>): (r: seq<SeasonalPoint>)
    ensures |r| == |days|
    ensures forall i :: 0 <= i < |days| ==> r[i] == SeasonalPointOf(days[i])
  {
    if days == [] then [] else [SeasonalPointOf(days[0])] + SeasonalPoints(days[1..])
  }

  /** `getSeasonalChartData`. */
  function SeasonalChartData(patterns: Option<SeasonalPatterns>): seq<SeasonalPoint>
  {
    if patterns.None? || patterns.value.byDayOfWeek.None? then []
    else SeasonalPoints(patterns.value.byDayOfWeek.value)
  }

  /** No analysis, or one without a by-day breakdown, gives no points;
      otherwise one point per day in the same order, named by the first
      three characters of the day name and valued at its total. */
  lemma SeasonalChart(patterns: Option<SeasonalPatterns>)
    ensures patterns.None? || patterns.value.byDayOfWeek.None? ==> SeasonalChartData(patterns) == []
    ensures patterns.Some? && patterns.value.byDayOfWeek.Some? ==>
      var days := patterns.value.byDayOfWeek.value;
      var points := SeasonalChartData(patterns);
      && |points| == |days|
      && forall i :: 0 <= i < |days| ==>
           && points[i].value == days[i].total
           && IsPrefix(points[i].name, days[i].dayName)
           && |points[i].name| == (if |days[i].dayName| < DayNameLength then |days[i].dayName| else DayNameLength)
  {
  }

  /** What `renderTabContent` draws. */
  datatype TabContent = LoadingView | ErrorView(message: string) | PredictionsTab | RestockTab | PerformanceTab | SeasonalTab

  /** Loading first, then a non-empty error, then the selected tab; a tab
      name the switch does not know draws the predictions. */
  function RenderTabContent(loading: bool, error: Option<string>, activeTab: string): (r: TabContent)
    ensures loading ==> r == LoadingView
    ensures !loading && error.Some? && error.value != "" ==> r == ErrorView(error.value)
    ensures r.ErrorView? ==> !loading
  {
    if loading then LoadingView
    else if error.Some? && error.value != "" then ErrorView(error.value)
    else match activeTab
      case "restock" => RestockTab
      case "performance" => PerformanceTab
      case "seasonal" => SeasonalTab
      case _ => PredictionsTab
  }

  /** With nothing loading and no error, each of the four tab names draws
      its tab and every other name draws the predictions. */
  lemma TabSelection(activeTab: string, error: Option<string>)
    requires error.None? || error.value == ""
    ensures RenderTabContent(false, error, "predictions") == PredictionsTab
    ensures RenderTabContent(false, error, "restock") == RestockTab
    ensures RenderTabContent(false, error, "performance") == PerformanceTab
    ensures RenderTabContent(false, error, "seasonal") == SeasonalTab
    ensures activeTab !in {"restock", "performance", "seasonal"} ==> RenderTabContent(false, error, activeTab) == PredictionsTab
  {
  }

  /** The page state `analyzeData` writes. `R` stands for a restock
      recommendation and `P` for the product-performance report. */
  datatype AnalyticsState<R, P> = AnalyticsState(
    prediction: seq<PredictionEntry>,
    restock: seq<R>,
    performance: Option<P>,
    patterns: Option<SeasonalPatterns>,
    error: Option<string>)

  function InitialState<R, P>(): (r: AnalyticsState<R, P>)
    ensures r.prediction == [] && r.restock == [] && r.performance.None? && r.patterns.None?
    ensures r.error.None?
  {
    AnalyticsState([], [], None, None, None)
  }

  /** The outcome of each of the four analyses, in the order they are
      called; `None` stands for a call that throws. */
  datatype AnalysisRun<R, P> = AnalysisRun(
    prediction: Option<seq<PredictionEntry>>,
    restock: Option<seq<R>>,
    performance: Option<P>,
    patterns: Option<SeasonalPatterns>)

  const AnalysisError := "Error al generar análisis avanzado."

  /** `analyzeData`: nothing when sales or products are missing; otherwise
      each result is stored in turn, and the first analysis that throws
      stops the rest and sets the error. */
  function AnalyzeData<S, Q, R, P>(state: AnalyticsState<R, P>, sales: Option<S>, products: Option<Q>, run: AnalysisRun<R, P>): AnalyticsState<R, P>
  {
    if sales.None? || products.None? then state
    else if run.prediction.None? then state.(error := Some(AnalysisError))
    else
      var s1 := state.(prediction := run.prediction.value);
      if run.restock.None? then s1.(error := Some(AnalysisError))
      else
        var s2 := s1.(restock := run.restock.value);
        if run.performance.None? then s2.(error := Some(AnalysisError))
        else
          var s3 := s2.(performance := run.performance);
          if run.patterns.None? then s3.(error := Some(AnalysisError))
          else s3.(patterns := run.patterns)
  }

  /** Missing sales or products leave the page as it was. When every
      analysis succeeds all four results are stored and the error is left
      alone; when one throws, the results before it are stored, the ones
      after it are not, and the error is set. */
  lemma AnalyzeDataOutcome<S, Q, R, P>(state: AnalyticsState<R, P>, sales: Option<S>, products: Option<Q>, run: AnalysisRun<R, P>)
    ensures sales.None? || products.None? ==> AnalyzeData(state, sales, products, run) == state
    ensures sales.Some? && products.Some? && run.prediction.Some? && run.restock.Some? && run.performance.Some? && run.patterns.Some? ==>
      AnalyzeData(state, sales, products, run) ==
        AnalyticsState(run.prediction.value, run.restock.value, run.performance, run.patterns, state.error)
    ensures sales.Some? && products.Some? && run.prediction.None? ==>
      AnalyzeData(state, sales, products, run) == state.(error := Some(AnalysisError))
    ensures sales.Some? && products.Some? && run.prediction.Some? && run.restock.None? ==>
      AnalyzeData(state, sales, products, run) == state.(prediction := run.prediction.value, error := Some(AnalysisError))
    ensures sales.Some? && products.Some? && run.prediction.Some? && run.restock.Some? && run.performance.None? ==>
      AnalyzeData(state, sales, products, run) ==
        state.(prediction := run.prediction.value, restock := run.restock.value, error := Some(AnalysisError))
    ensures sales.Some? && products.Some? && run.prediction.Some? && run.restock.Some? && run.performance.Some? && run.patterns.None? ==>
      AnalyzeData(state, sales, products, run) ==
        state.(prediction := run.prediction.value, restock := run.restock.value, performance := run.performance, error := Some(AnalysisError))
  {
  }
}
