/** The dashboard's session dictionary (`st.session_state` in app.py) and
    one run of the script over it. */
module Session {
  import opened Common
  import opened Areas
  import opened Selection
  import opened Chart

  /** The values the script stores in the session. */
  datatype Value = Text(s: string) | Number(x: real) | Flag(b: bool) | Frame(rows: seq<Observation>)

  /** The keys dropped when the mode changes, in the order the loop pops them. */
  const ResetKeys: seq<string> := ["sel_lga", "lat", "lon", "forecast_data", "historical_data", "last_fetch"]

  /** `last_fetch` holds True. */
  predicate LatchSet(entries: map<string, Value>) {
    "last_fetch" in entries && entries["last_fetch"] == Flag(true)
  }

  /** The session invariant: a selection is stored as a whole (name, lat,
      lon), and the fetch latch is only ever set while a selection is stored. */
  predicate WellFormed(entries: map<string, Value>) {
    && ("sel_lga" in entries <==> "lat" in entries)
    && ("lat" in entries <==> "lon" in entries)
    && ("sel_lga" in entries ==> entries["sel_lga"].Text? && entries["lat"].Number? && entries["lon"].Number?)
    && (LatchSet(entries) ==> "sel_lga" in entries)
  }

  /** `st.session_state.get('mode') != mode`. */
  predicate ModeChanged(entries: map<string, Value>, mode: string)
    ensures "mode" !in entries ==> ModeChanged(entries, mode)
    ensures !ModeChanged(entries, mode) ==> "mode" in entries && entries["mode"].Text? && entries["mode"].s == mode
  {
    !("mode" in entries && entries["mode"] == Text(mode))
  }

  /** The session after the mode check of app.py:121-124: on a change, the
      reset keys are gone and the new mode is stored; otherwise nothing differs. */
  function AfterModeCheck(entries: map<string, Value>, mode: string): (r: map<string, Value>)
    ensures WellFormed(entries) ==> WellFormed(r)
    ensures "mode" in r && r["mode"] == Text(mode)
    ensures !ModeChanged(entries, mode) ==> r == entries
  {
    if ModeChanged(entries, mode) then (entries - (set k | k in ResetKeys))["mode" := Text(mode)] else entries
  }

  /** Exactly the reset keys are removed and `mode` is set; every other key keeps its value. */
  lemma ModeResetIsExact(entries: map<string, Value>, mode: string, k: string)
    requires ModeChanged(entries, mode)
    ensures k in ResetKeys ==> k !in AfterModeCheck(entries, mode)
    ensures AfterModeCheck(entries, mode)["mode"] == Text(mode)
    ensures k != "mode" && k !in ResetKeys ==>
              (k in AfterModeCheck(entries, mode) <==> k in entries) &&
              (k in entries ==> AfterModeCheck(entries, mode)[k] == entries[k])
  {
  }

  /** Re-checking the same mode changes nothing. */
  lemma ModeCheckIdempotent(entries: map<string, Value>, mode: string)
    ensures AfterModeCheck(AfterModeCheck(entries, mode), mode) == AfterModeCheck(entries, mode)
  {
  }

  /** The writes of app.py:139-141: the chosen name and its centroid. */
  function SelectWrites(entries: map<string, Value>, sel: Selected): (r: map<string, Value>)
    ensures WellFormed(entries) ==> WellFormed(r)
    ensures LatchSet(r) == LatchSet(entries)
    ensures "sel_lga" in r && r["sel_lga"] == Text(sel.lga)
    ensures "lat" in r && r["lat"] == Number(sel.lat) && "lon" in r && r["lon"] == Number(sel.lon)
    ensures forall k :: k !in {"sel_lga", "lat", "lon"} ==> (k in r <==> k in entries) && (k in r ==> r[k] == entries[k])
  {
    entries["sel_lga" := Text(sel.lga)]["lat" := Number(sel.lat)]["lon" := Number(sel.lon)]
  }

  class SessionState {
    var entries: map<string, Value>

    predicate Latched()
      reads this
    {
      LatchSet(entries)
    }

    ghost predicate Valid()
      reads this
    {
      WellFormed(entries)
    }

    /** A new browser session starts with no entries. */
    constructor ()
      ensures Valid() && entries == map[]
    {
      entries := map[];
    }

    /** app.py:121-124: pop each reset key, then store the mode. */
    method ResetOnModeChange(mode: string)
      requires Valid()
      modifies this
      ensures Valid()
      ensures entries == AfterModeCheck(old(entries), mode)
    {
      if ModeChanged(entries, mode) {
        var i := 0;
        while i < |ResetKeys|
          invariant 0 <= i <= |ResetKeys|
          invariant entries == old(entries) - (set k | k in ResetKeys[..i])
        {
          assert ResetKeys[..i + 1] == ResetKeys[..i] + [ResetKeys[i]];
          entries := entries - {ResetKeys[i]};
          i := i + 1;
        }
        assert ResetKeys[..i] == ResetKeys;
        entries := entries["mode" := Text(mode)];
      }
    }

    /** app.py:139-141: store the chosen LGA and its centroid. */
    method Select(sel: Selected)
      requires Valid()
      modifies this
      ensures Valid()
      ensures entries == SelectWrites(old(entries), sel)
      ensures Latched() == old(Latched())
    {
      entries := entries["sel_lga" := Text(sel.lga)]["lat" := Number(sel.lat)]["lon" := Number(sel.lon)];
    }

    /** app.py:159-160: the fetch block runs when the button was pressed or
        the latch is set, and running it sets the latch. */
    method LatchFetch(pressed: bool) returns (active: bool)
      requires Valid() && "sel_lga" in entries
      modifies this
      ensures Valid()
      ensures active == (pressed || old(Latched()))
      ensures entries == if active then old(entries)["last_fetch" := Flag(true)] else old(entries)
      ensures Latched() == active
    {
      active := pressed || Latched();
      if active {
        entries := entries["last_fetch" := Flag(true)];
      }
    }

    /** app.py:165 and app.py:191: keep the fetched table. */
    method Store(key: string, rows: seq<Observation>)
      requires Valid() && key in ["forecast_data", "historical_data"]
      modifies this
      ensures Valid()
      ensures entries == old(entries)[key := Frame(rows)]
    {
      entries := entries[key := Frame(rows)];
    }
  }

  /** What one run of the script shows. */
  datatype View =
    | LoadFailed                     // the LGA table is missing or empty
    | AboutPage
    | NoSuchRowError                 // the chosen LGA names no row (IndexError)
    | Prompt                         // nothing selected yet
    | Idle                           // selected, fetch block skipped
    | FetchFailed                    // the fetch client raised
    | ChartRejected                  // an empty forecast table: no figure for st.plotly_chart
    | ForecastView(chart: seq<Trace>, metrics: Option<Metrics>)
    | HistoricalView(discharge: Option<real>)   // None: the table was empty (IndexError)

  /** The widgets' values for one run, and what the fetch client returns for
      the stored coordinates (`None`: it raised). */
  datatype RunInputs = RunInputs(mode: string, lgaChoice: Option<string>, date: Date, pressed: bool,
                                 forecast: Option<seq<Observation>>, historical: Option<seq<Observation>>)

  /** What a run shows, and the session it leaves. */
  datatype Outcome = Outcome(view: View, entries: map<string, Value>)

  /** `baseline_map.get(name)`. */
  function BaselineFor(baselines: map<string, real>, name: string): (b: Option<real>)
    ensures b.Some? <==> name in baselines
    ensures b.Some? ==> b.value == baselines[name]
  {
    if name in baselines then Some(baselines[name]) else None
  }

  /** The fetch block (app.py:154-194) run on a session holding a selection. */
  function FetchOutcome(entries: map<string, Value>, baselines: map<string, real>, inp: RunInputs): (o: Outcome)
    requires WellFormed(entries) && "sel_lga" in entries
    ensures WellFormed(o.entries) && "sel_lga" in o.entries
    ensures o.entries["sel_lga"] == entries["sel_lga"]
    ensures o.entries["lat"] == entries["lat"] && o.entries["lon"] == entries["lon"]
  {
    var b := BaselineFor(baselines, entries["sel_lga"].s);
    if !(inp.pressed || LatchSet(entries)) then Outcome(Idle, entries)
    else
      var latched := entries["last_fetch" := Flag(true)];
      if inp.mode == ForecastMode then
        match inp.forecast
        case None => Outcome(FetchFailed, latched)
        case Some(rows) =>
          var stored := latched["forecast_data" := Frame(rows)];
          match ChartLines(inp.forecast, b)
          case None => Outcome(ChartRejected, stored)
          case Some(lines) => Outcome(ForecastView(lines, ForecastMetrics(rows, inp.date, b)), stored)
      else
        match inp.historical
        case None => Outcome(FetchFailed, latched)
        case Some(rows) => Outcome(HistoricalView(HistoricalDischarge(rows)), latched["historical_data" := Frame(rows)])
  }

  /** Which view the fetch block produces: nothing when neither the button
      nor the latch asks for a fetch, the failure view exactly when the
      mode's fetch raised, and the mode's data view exactly when it returned. */
  lemma FetchViews(entries: map<string, Value>, baselines: map<string, real>, inp: RunInputs)
    requires WellFormed(entries) && "sel_lga" in entries
    ensures var o := FetchOutcome(entries, baselines, inp);
            var active := inp.pressed || LatchSet(entries);
            && (o.view == Idle <==> !active)
            && (o.view == FetchFailed <==>
                  active && if inp.mode == ForecastMode then inp.forecast.None? else inp.historical.None?)
            && (o.view == ChartRejected <==>
                  active && inp.mode == ForecastMode && inp.forecast.Some? && |inp.forecast.value| == 0)
            && (o.view.ForecastView? <==>
                  active && inp.mode == ForecastMode && inp.forecast.Some? && |inp.forecast.value| > 0)
            && (o.view == ChartRejected ==>
                  o.entries == entries["last_fetch" := Flag(true)]["forecast_data" := Frame(inp.forecast.value)])
            && (o.view.HistoricalView? <==> active && inp.mode != ForecastMode && inp.historical.Some?)
            && (LatchSet(o.entries) <==> active)
  {
  }

  /** A forecast view shows the chart of the whole fetched table and the
      metrics of the chosen date, and the session keeps everything but the
      latch and the stored table. */
  lemma ForecastViewContents(entries: map<string, Value>, baselines: map<string, real>, inp: RunInputs)
    requires WellFormed(entries) && "sel_lga" in entries
    requires FetchOutcome(entries, baselines, inp).view.ForecastView?
    ensures var o := FetchOutcome(entries, baselines, inp);
            var b := BaselineFor(baselines, entries["sel_lga"].s);
            && inp.forecast.Some?
            && |inp.forecast.value| > 0
            && ChartLines(inp.forecast, b) == Some(o.view.chart)
            && o.view.metrics == ForecastMetrics(inp.forecast.value, inp.date, b)
            && o.entries == entries["last_fetch" := Flag(true)]["forecast_data" := Frame(inp.forecast.value)]
  {
  }

  /** Whether a run gets past the load check and the About page. */
  predicate Proceeds(areas: Option<seq<AreaRecord>>, mode: string) {
    areas.Some? && |areas.value| > 0 && mode != "About"
  }

  /** One run of the script (app.py:73-194) over the session `entries`. */
  function RunOutcome(entries: map<string, Value>, areas: Option<seq<AreaRecord>>, baselines: map<string, real>,
                      inp: RunInputs): (o: Outcome)
    requires WellFormed(entries)
    ensures WellFormed(o.entries)
  {
    if areas.None? || |areas.value| == 0 then Outcome(LoadFailed, entries)
    else if inp.mode == "About" then Outcome(AboutPage, entries)
    else
      var reset := AfterModeCheck(entries, inp.mode);
      var pick := PickArea(areas.value, inp.lgaChoice);
      if pick == NoSuchRow then Outcome(NoSuchRowError, reset)
      else
        var chosen := if pick.Picked? then SelectWrites(reset, pick.sel) else reset;
        if "sel_lga" !in chosen then Outcome(Prompt, chosen) else FetchOutcome(chosen, baselines, inp)
  }

  /** The run stops early, touching nothing, on a failed load or the About page;
      otherwise it stores the mode. */
  lemma RunStops(entries: map<string, Value>, areas: Option<seq<AreaRecord>>, baselines: map<string, real>,
                 inp: RunInputs)
    requires WellFormed(entries)
    ensures var o := RunOutcome(entries, areas, baselines, inp);
            && (o.view == LoadFailed <==> areas.None? || |areas.value| == 0)
            && (o.view == AboutPage <==> areas.Some? && |areas.value| > 0 && inp.mode == "About")
            && (!Proceeds(areas, inp.mode) ==> o.entries == entries)
            && (Proceeds(areas, inp.mode) ==> "mode" in o.entries && o.entries["mode"] == Text(inp.mode))
  {
    if Proceeds(areas, inp.mode) {
      var reset := AfterModeCheck(entries, inp.mode);
      var pick := PickArea(areas.value, inp.lgaChoice);
      var chosen := if pick.Picked? then SelectWrites(reset, pick.sel) else reset;
      if pick != NoSuchRow && "sel_lga" in chosen { FetchViews(chosen, baselines, inp); }
    }
  }

  /** The pick decides the crash and the prompt, and a successful pick is stored. */
  lemma RunPicks(entries: map<string, Value>, areas: Option<seq<AreaRecord>>, baselines: map<string, real>,
                 inp: RunInputs)
    requires WellFormed(entries)
    ensures var o := RunOutcome(entries, areas, baselines, inp);
            && (o.view == NoSuchRowError <==>
                  Proceeds(areas, inp.mode) && PickArea(areas.value, inp.lgaChoice) == NoSuchRow)
            && (o.view == Prompt <==>
                  Proceeds(areas, inp.mode) && PickArea(areas.value, inp.lgaChoice) == NoPick &&
                  "sel_lga" !in AfterModeCheck(entries, inp.mode))
            && (o.view in {NoSuchRowError, Prompt} ==> o.entries == AfterModeCheck(entries, inp.mode))
            && (Proceeds(areas, inp.mode) && PickArea(areas.value, inp.lgaChoice).Picked? ==>
                  var sel := PickArea(areas.value, inp.lgaChoice).sel;
                  && "sel_lga" in o.entries && o.entries["sel_lga"] == Text(sel.lga)
                  && "lat" in o.entries && o.entries["lat"] == Number(sel.lat)
                  && "lon" in o.entries && o.entries["lon"] == Number(sel.lon))
  {
  }

  /** The latch after a run: set iff a selection exists and the button was
      pressed or the latch survived the mode check; so once set it stays set
      until a mode change removes it. */
  lemma RunLatch(entries: map<string, Value>, areas: Option<seq<AreaRecord>>, baselines: map<string, real>,
                 inp: RunInputs)
    requires WellFormed(entries)
    ensures var o := RunOutcome(entries, areas, baselines, inp);
            && (o.view !in {LoadFailed, AboutPage, NoSuchRowError} ==>
                  (LatchSet(o.entries) <==> "sel_lga" in o.entries &&
                                            (inp.pressed || (LatchSet(entries) && !ModeChanged(entries, inp.mode)))))
            && (LatchSet(entries) && !ModeChanged(entries, inp.mode) ==> LatchSet(o.entries))
  {
  }

  /** The fetch block, app.py:154-194, run once a selection is stored: look
      up the baseline, apply the fetch latch, fetch, and build the view. */
  method FetchBlock(s: SessionState, baselines: map<string, real>, inp: RunInputs) returns (view: View)
    requires s.Valid() && "sel_lga" in s.entries
    modifies s
    ensures s.Valid() && "sel_lga" in s.entries
    ensures Outcome(view, s.entries) == FetchOutcome(old(s.entries), baselines, inp)
    ensures s.Latched() == (inp.pressed || old(s.Latched()))
    ensures view == Idle <==> !s.Latched()
    ensures view == FetchFailed <==>
              s.Latched() && if inp.mode == ForecastMode then inp.forecast.None? else inp.historical.None?
    ensures view == ChartRejected <==>
              s.Latched() && inp.mode == ForecastMode && inp.forecast.Some? && |inp.forecast.value| == 0
    ensures view.ForecastView? <==>
              s.Latched() && inp.mode == ForecastMode && inp.forecast.Some? && |inp.forecast.value| > 0
    ensures view.HistoricalView? <==> s.Latched() && inp.mode != ForecastMode && inp.historical.Some?
    ensures view == Idle || view == FetchFailed ==>
              s.entries == if s.Latched() then old(s.entries)["last_fetch" := Flag(true)] else old(s.entries)
    ensures s.entries["sel_lga"] == old(s.entries)["sel_lga"]
    ensures "mode" in old(s.entries) ==> "mode" in s.entries && s.entries["mode"] == old(s.entries)["mode"]
    ensures view in {Idle, FetchFailed, ChartRejected} || view.ForecastView? || view.HistoricalView?
    ensures view == ChartRejected ==>
              inp.forecast.Some? &&
              s.entries == old(s.entries)["last_fetch" := Flag(true)]["forecast_data" := Frame(inp.forecast.value)]
    ensures view.ForecastView? ==>
              inp.forecast.Some? &&
              s.entries == old(s.entries)["last_fetch" := Flag(true)]["forecast_data" := Frame(inp.forecast.value)] &&
              ChartLines(inp.forecast, BaselineFor(baselines, s.entries["sel_lga"].s)) == Some(view.chart) &&
              view.metrics == ForecastMetrics(inp.forecast.value, inp.date, BaselineFor(baselines, s.entries["sel_lga"].s))
    ensures view.HistoricalView? ==>
              inp.historical.Some? &&
              s.entries == old(s.entries)["last_fetch" := Flag(true)]["historical_data" := Frame(inp.historical.value)] &&
              view.discharge == HistoricalDischarge(inp.historical.value)
  {
    var lgaName := s.entries["sel_lga"].s;
    var baseline := BaselineFor(baselines, lgaName);
    var active := s.LatchFetch(inp.pressed);
    if !active {
      return Idle;
    }
    if inp.mode == ForecastMode {
      if inp.forecast.None? {
        return FetchFailed;
      }
      s.Store("forecast_data", inp.forecast.value);
      var fig := GenerateTimeSeriesChart(inp.forecast, baseline);
      if fig == null {
        // st.plotly_chart(None) raises before the metrics are drawn
        return ChartRejected;
      }
      var metrics := ForecastMetrics(inp.forecast.value, inp.date, baseline);
      return ForecastView(fig.traces, metrics);
    } else {
      if inp.historical.None? {
        return FetchFailed;
      }
      s.Store("historical_data", inp.historical.value);
      return HistoricalView(HistoricalDischarge(inp.historical.value));
    }
  }

  /** One run of the script (app.py:73-194) with the widgets' current values. */
  method Rerun(s: SessionState, areas: Option<seq<AreaRecord>>, baselines: map<string, real>, inp: RunInputs)
    returns (view: View)
    requires s.Valid()
    modifies s
    ensures s.Valid()
    ensures Outcome(view, s.entries) == RunOutcome(old(s.entries), areas, baselines, inp)
    ensures areas.None? || |areas.value| == 0 ==> view == LoadFailed && s.entries == old(s.entries)
    ensures areas.Some? && |areas.value| > 0 && inp.mode == "About" ==> view == AboutPage && s.entries == old(s.entries)
    ensures view !in {LoadFailed, AboutPage} ==> "mode" in s.entries && s.entries["mode"] == Text(inp.mode)
    ensures view == NoSuchRowError <==>
              Proceeds(areas, inp.mode) && PickArea(areas.value, inp.lgaChoice) == NoSuchRow
    ensures view == Prompt <==>
              Proceeds(areas, inp.mode) && PickArea(areas.value, inp.lgaChoice) == NoPick &&
              "sel_lga" !in AfterModeCheck(old(s.entries), inp.mode)
    ensures view == NoSuchRowError || view == Prompt ==> s.entries == AfterModeCheck(old(s.entries), inp.mode)
    ensures Proceeds(areas, inp.mode) && PickArea(areas.value, inp.lgaChoice).Picked? ==>
              var sel := PickArea(areas.value, inp.lgaChoice).sel;
              && "sel_lga" in s.entries && s.entries["sel_lga"] == Text(sel.lga)
              && "lat" in s.entries && s.entries["lat"] == Number(sel.lat)
              && "lon" in s.entries && s.entries["lon"] == Number(sel.lon)
    // the latch is set after a run iff a selection exists and the button
    // was pressed or the latch survived the mode check
    ensures view !in {LoadFailed, AboutPage, NoSuchRowError} ==>
              (s.Latched() <==> "sel_lga" in s.entries &&
                                (inp.pressed || (old(s.Latched()) && !ModeChanged(old(s.entries), inp.mode))))
    ensures view == ChartRejected ==>
              inp.mode == ForecastMode && inp.forecast.Some? && |inp.forecast.value| == 0 && s.Latched() &&
              "forecast_data" in s.entries && s.entries["forecast_data"] == Frame(inp.forecast.value)
    ensures view.ForecastView? ==>
              inp.mode == ForecastMode && inp.forecast.Some? && |inp.forecast.value| > 0 &&
              "forecast_data" in s.entries && "sel_lga" in s.entries &&
              s.entries["forecast_data"] == Frame(inp.forecast.value) &&
              view.metrics == ForecastMetrics(inp.forecast.value, inp.date, BaselineFor(baselines, s.entries["sel_lga"].s))
    ensures view.HistoricalView? ==>
              inp.mode != ForecastMode && inp.historical.Some? && "historical_data" in s.entries &&
              s.entries["historical_data"] == Frame(inp.historical.value) &&
              view.discharge == HistoricalDischarge(inp.historical.value)
    ensures view == FetchFailed ==> s.Latched()
    // once set, the latch survives every run that keeps the mode
    ensures old(s.Latched()) && !ModeChanged(old(s.entries), inp.mode) ==> s.Latched()
  {
    ghost var before := s.entries;
    RunStops(before, areas, baselines, inp);
    RunPicks(before, areas, baselines, inp);
    RunLatch(before, areas, baselines, inp);
    if areas.None? || |areas.value| == 0 {
      return LoadFailed;
    }
    if inp.mode == "About" {
      return AboutPage;
    }
    var rows := areas.value;
    s.ResetOnModeChange(inp.mode);
    var pick := PickArea(rows, inp.lgaChoice);
    if pick == NoSuchRow {
      return NoSuchRowError;
    }
    if pick.Picked? {
      s.Select(pick.sel);
    }
    if "sel_lga" !in s.entries {
      return Prompt;
    }
    ghost var chosen := s.entries;
    FetchViews(chosen, baselines, inp);
    view := FetchBlock(s, baselines, inp);
  }
}
