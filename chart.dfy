/** The data behind the forecast chart (generate_time_series_chart). */
module Chart {
  import opened Common

  /** One line of the figure: its legend name and its x and y values. */
  datatype Trace = Trace(name: string, xs: seq<Date>, ys: seq<real>)

  /** The figure the chart is built into; `add_trace` appends a line. */
  class Figure {
    var traces: seq<Trace>

    constructor ()
      ensures traces == []
    {
      traces := [];
    }

    method AddTrace(t: Trace)
      modifies this
      ensures traces == old(traces) + [t]
    {
      traces := traces + [t];
    }
  }

  /** The forecast line: the table's dates against its discharges. */
  function PrimaryTrace(series: seq<Observation>): (t: Trace)
    ensures t.name == "Forecast Discharge" && |t.xs| == |series| && |t.ys| == |series|
    ensures forall i :: 0 <= i < |series| ==> t.xs[i] == series[i].date && t.ys[i] == series[i].dischargeMax
  {
    Trace("Forecast Discharge", Dates(series), Discharges(series))
  }

  /** The dashed baseline line: `[baseline] * len(forecast_data)` over the same dates. */
  function BaselineTrace(series: seq<Observation>, baseline: real): (t: Trace)
    ensures t.name == "Baseline" && t.xs == Dates(series) && |t.ys| == |series|
    ensures forall i :: 0 <= i < |series| ==> t.ys[i] == baseline
  {
    Trace("Baseline", Dates(series), seq(|series|, _ => baseline))
  }

  /** The (date, value) pairs a line plots. */
  function PointsOf(t: Trace): (s: seq<Observation>)
    requires |t.xs| == |t.ys|
    ensures |s| == |t.xs|
  {
    seq(|t.xs|, i requires 0 <= i < |t.xs| => Observation(t.xs[i], t.ys[i]))
  }

  /** The forecast line plots exactly the input rows, in input order. */
  lemma PrimaryTracePlotsSeries(series: seq<Observation>)
    ensures |PrimaryTrace(series).xs| == |PrimaryTrace(series).ys|
    ensures PointsOf(PrimaryTrace(series)) == series
  {
  }

  /** The baseline line spans the forecast's dates at the constant baseline. */
  lemma BaselineTraceIsFlat(series: seq<Observation>, baseline: real)
    ensures BaselineTrace(series, baseline).xs == PrimaryTrace(series).xs
    ensures |BaselineTrace(series, baseline).ys| == |series|
    ensures forall i :: 0 <= i < |series| ==> BaselineTrace(series, baseline).ys[i] == baseline
  {
  }

  /** The lines the figure ends up with: `None` for "no chart" (no table or
      no rows), otherwise the forecast line, then the baseline line exactly
      when the baseline is truthy. */
  function ChartLines(data: Option<seq<Observation>>, baseline: Option<real>): (lines: Option<seq<Trace>>)
    ensures lines.None? <==> data.None? || |data.value| == 0
    ensures lines.Some? ==> |lines.value| == if Truthy(baseline) then 2 else 1
    ensures lines.Some? ==> lines.value[0] == PrimaryTrace(data.value)
    ensures lines.Some? && Truthy(baseline) ==> lines.value[1] == BaselineTrace(data.value, baseline.value)
  {
    if data.None? || |data.value| == 0 then None
    else if Truthy(baseline) then Some([PrimaryTrace(data.value), BaselineTrace(data.value, baseline.value)])
    else Some([PrimaryTrace(data.value)])
  }

  /** Builds the figure, or returns `null` ("no chart") when there is no
      table or it has no rows. The baseline line is added iff the baseline
      is truthy (present and non-zero). */
  method GenerateTimeSeriesChart(data: Option<seq<Observation>>, baseline: Option<real>)
    returns (fig: Figure?)
    ensures fig == null <==> data.None? || |data.value| == 0
    ensures fig != null ==> |fig.traces| == if Truthy(baseline) then 2 else 1
    ensures fig != null ==> fig.traces[0] == PrimaryTrace(data.value)
    ensures fig != null && Truthy(baseline) ==> fig.traces[1] == BaselineTrace(data.value, baseline.value)
    ensures (if fig == null then None else Some(fig.traces)) == ChartLines(data, baseline)
  {
    if data.None? || |data.value| == 0 {
      return null;
    }
    var series := data.value;
    fig := new Figure();
    fig.AddTrace(PrimaryTrace(series));
    assert fig.traces == [PrimaryTrace(series)];
    if Truthy(baseline) {
      fig.AddTrace(BaselineTrace(series, baseline.value));
      assert fig.traces == [PrimaryTrace(series), BaselineTrace(series, baseline.value)];
    }
  }
}
