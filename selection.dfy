/** The per-run derivations of the dashboard script that only compute values:
    the State and LGA option lists, the row an LGA choice selects, the date
    window, the ratio guard and the forecast metrics for the chosen date. */
module Selection {
  import opened Common
  import opened Ordering
  import opened Areas
  import opened Risk

  const AllStates: string := "All"
  const HistoricalMode: string := "Historical"
  const ForecastMode: string := "Forecast"
  const ForecastDays: int := 7

  /** The `State` column. */
  function StateColumn(areas: seq<AreaRecord>): (r: seq<string>)
    ensures |r| == |areas| && forall i :: 0 <= i < |areas| ==> r[i] == areas[i].state
  {
    seq(|areas|, i requires 0 <= i < |areas| => areas[i].state)
  }

  /** The State selector's options: "All", then each State once, ascending. */
  function StateOptions(areas: seq<AreaRecord>): (opts: seq<string>)
    ensures |opts| >= 1 && opts[0] == AllStates
    ensures Sorted(opts[1..]) && NoDuplicates(opts[1..])
    ensures forall s :: s in opts[1..] <==> exists i :: 0 <= i < |areas| && areas[i].state == s
  {
    var states := Unique(StateColumn(areas));
    SortKeepsNoDuplicates(states);
    SortKeepsMembers(states);
    var opts := [AllStates] + Sort(states);
    assert opts[1..] == Sort(states);
    opts
  }

  /** The positions of the rows with State `state` and LGA `lga`. */
  ghost function RowsWith(areas: seq<AreaRecord>, state: string, lga: string): set<nat> {
    set i: nat | i < |areas| && areas[i].state == state && areas[i].lga == lga
  }

  /** The `LGA` column of the rows whose State is `state`, in row order: each
      such row contributes one entry, so repeated names are kept. */
  function LgasOf(areas: seq<AreaRecord>, state: string): (r: seq<string>)
    ensures |r| <= |areas|
    ensures forall n :: multiset(r)[n] == |RowsWith(areas, state, n)|
    ensures forall n :: n in r <==> exists i :: 0 <= i < |areas| && areas[i].state == state && areas[i].lga == n
    decreases |areas|
  {
    if |areas| == 0 then
      assert forall n :: RowsWith(areas, state, n) == {};
      []
    else
      var front := areas[..|areas| - 1];
      var last := areas[|areas| - 1];
      var rest := LgasOf(front, state);
      var r := if last.state == state then rest + [last.lga] else rest;
      assert forall n :: multiset(r)[n] == |RowsWith(areas, state, n)| by {
        forall n ensures multiset(r)[n] == |RowsWith(areas, state, n)| {
          RowsWithLast(areas, state, n);
        }
      }
      assert forall n :: n in r <==> multiset(r)[n] > 0;
      assert forall n :: |RowsWith(areas, state, n)| > 0 <==>
                         exists i :: 0 <= i < |areas| && areas[i].state == state && areas[i].lga == n by {
        forall n ensures |RowsWith(areas, state, n)| > 0 <==>
                         exists i :: 0 <= i < |areas| && areas[i].state == state && areas[i].lga == n {
          if |RowsWith(areas, state, n)| > 0 {
            var i :| i in RowsWith(areas, state, n);
          }
          if exists i :: 0 <= i < |areas| && areas[i].state == state && areas[i].lga == n {
            var i :| 0 <= i < |areas| && areas[i].state == state && areas[i].lga == n;
            assert i in RowsWith(areas, state, n);
          }
        }
      }
      r
  }

  /** Dropping the last row removes its position, and only it, from the matches. */
  lemma RowsWithLast(areas: seq<AreaRecord>, state: string, lga: string)
    requires |areas| > 0
    ensures var last := areas[|areas| - 1];
            |RowsWith(areas, state, lga)| ==
            |RowsWith(areas[..|areas| - 1], state, lga)| + if last.state == state && last.lga == lga then 1 else 0
  {
    var n := |areas| - 1;
    var front := areas[..n];
    var all := RowsWith(areas, state, lga);
    var before := RowsWith(front, state, lga);
    var extra: set<nat> := if areas[n].state == state && areas[n].lga == lga then {n} else {};
    forall i: nat ensures i in all <==> i in before + extra {
      if i < n { assert front[i] == areas[i]; }
    }
    assert all == before + extra;
    assert n !in before;
  }

  /** Two rows of one State with the same LGA give that name twice. */
  lemma LgasOfKeepsDuplicates(g: Geometry)
    ensures LgasOf([AreaRecord("X", "S", 0.0, 0.0, g), AreaRecord("X", "S", 1.0, 1.0, g)], "S") == ["X", "X"]
  {
  }

  /** The whole `LGA` column, in row order. */
  function LgaColumn(areas: seq<AreaRecord>): (r: seq<string>)
    ensures |r| == |areas| && forall i :: 0 <= i < |areas| ==> r[i] == areas[i].lga
  {
    seq(|areas|, i requires 0 <= i < |areas| => areas[i].lga)
  }

  /** The LGA selector's options: every LGA of the chosen State (all rows for
      "All"), ascending, duplicates kept. */
  function LgaOptions(areas: seq<AreaRecord>, state: string): (opts: seq<string>)
    ensures Sorted(opts)
    ensures state != AllStates ==> multiset(opts) == multiset(LgasOf(areas, state))
    ensures state == AllStates ==> multiset(opts) == multiset(LgaColumn(areas))
  {
    if state != AllStates then Sort(LgasOf(areas, state)) else Sort(LgaColumn(areas))
  }

  /** Every offered LGA names some row (of the chosen State, unless "All"). */
  lemma LgaOptionHasRow(areas: seq<AreaRecord>, state: string, lga: string)
    requires lga in LgaOptions(areas, state)
    ensures exists i :: 0 <= i < |areas| && areas[i].lga == lga && (state != AllStates ==> areas[i].state == state)
  {
    var opts := LgaOptions(areas, state);
    assert lga in multiset(opts);
    if state == AllStates {
      assert lga in LgaColumn(areas);
    } else {
      assert lga in LgasOf(areas, state);
    }
  }

  /** The session entries a selection writes. */
  datatype Selected = Selected(lga: string, lat: real, lon: real)

  /** The outcome of the `if lga:` block: nothing (no or empty choice), the
      first row with that name, or an IndexError when no row has it. */
  datatype Pick = NoPick | Picked(sel: Selected) | NoSuchRow

  function HasLga(lga: string): AreaRecord -> bool {
    (a: AreaRecord) => a.lga == lga
  }

  /** `lga_gdf[lga_gdf['LGA'] == lga].iloc[0]` for a truthy choice. */
  function PickArea(areas: seq<AreaRecord>, choice: Option<string>): (p: Pick)
    ensures choice.None? || choice.value == "" <==> p == NoPick
    ensures p.Picked? ==>
              exists i :: 0 <= i < |areas| && areas[i].lga == choice.value &&
                (forall j :: 0 <= j < i ==> areas[j].lga != choice.value) &&
                p.sel == Selected(choice.value, areas[i].lat, areas[i].lon)
    ensures p == NoSuchRow <==> choice.Some? && choice.value != "" &&
                                forall j :: 0 <= j < |areas| ==> areas[j].lga != choice.value
  {
    if choice.None? || choice.value == "" then NoPick
    else match FirstIndex(areas, HasLga(choice.value))
      case None => NoSuchRow
      case Some(i) => Picked(Selected(choice.value, areas[i].lat, areas[i].lon))
  }

  /** A choice taken from the LGA options never raises. */
  lemma OfferedChoiceIsFound(areas: seq<AreaRecord>, state: string, lga: string)
    requires lga in LgaOptions(areas, state)
    requires forall i :: 0 <= i < |areas| ==> areas[i].lga != ""
    ensures PickArea(areas, Some(lga)).Picked?
  {
    LgaOptionHasRow(areas, state, lga);
  }

  /** A name shared by two States: choosing it under the second State still
      stores the first row's centroid, because the lookup ignores the State. */
  lemma PickIgnoresState(g: Geometry)
    ensures var areas := [AreaRecord("Surulere", "Lagos", 6.5, 3.4, g), AreaRecord("Surulere", "Oyo", 8.1, 4.1, g)];
            && "Surulere" in LgaOptions(areas, "Oyo")
            && PickArea(areas, Some("Surulere")) == Picked(Selected("Surulere", 6.5, 3.4))
            && areas[0].state != "Oyo"
  {
    var areas := [AreaRecord("Surulere", "Lagos", 6.5, 3.4, g), AreaRecord("Surulere", "Oyo", 8.1, 4.1, g)];
    assert areas[..1] == [areas[0]];
    assert LgasOf(areas, "Oyo") == ["Surulere"];
  }

  function HasLgaIn(state: string, lga: string): AreaRecord -> bool {
    (a: AreaRecord) => a.lga == lga && (state == AllStates || a.state == state)
  }

  /** The intended lookup: the first row with the chosen name within the
      chosen State (any State for "All"). */
  function PickAreaIn(areas: seq<AreaRecord>, state: string, choice: Option<string>): (p: Pick)
    ensures choice.None? || choice.value == "" <==> p == NoPick
    ensures p.Picked? ==>
              exists i :: 0 <= i < |areas| && areas[i].lga == choice.value &&
                (state != AllStates ==> areas[i].state == state) &&
                (forall j :: 0 <= j < i ==> !HasLgaIn(state, choice.value)(areas[j])) &&
                p.sel == Selected(choice.value, areas[i].lat, areas[i].lon)
    ensures p == NoSuchRow <==> choice.Some? && choice.value != "" &&
                                forall j :: 0 <= j < |areas| ==> !HasLgaIn(state, choice.value)(areas[j])
  {
    if choice.None? || choice.value == "" then NoPick
    else match FirstIndex(areas, HasLgaIn(state, choice.value))
      case None => NoSuchRow
      case Some(i) => Picked(Selected(choice.value, areas[i].lat, areas[i].lon))
  }

  /** With "All" chosen the intended lookup is the script's. */
  lemma PickAreaInAll(areas: seq<AreaRecord>, choice: Option<string>)
    ensures PickAreaIn(areas, AllStates, choice) == PickArea(areas, choice)
  {
    if choice.Some? && choice.value != "" {
      FirstIndexSamePredicate(areas, HasLgaIn(AllStates, choice.value), HasLga(choice.value));
    }
  }

  lemma {:induction false} FirstIndexSamePredicate<T>(s: seq<T>, p: T -> bool, q: T -> bool)
    requires forall x :: p(x) == q(x)
    ensures FirstIndex(s, p) == FirstIndex(s, q)
    decreases |s|
  {
    if |s| > 0 {
      FirstIndexSamePredicate(s[1..], p, q);
    }
  }

  /** Under the intended lookup an offered choice always finds a row, and by
      the contract of `PickAreaIn` that row lies in the chosen State. */
  lemma OfferedChoiceStaysInState(areas: seq<AreaRecord>, state: string, lga: string)
    requires lga in LgaOptions(areas, state)
    requires lga != ""
    ensures PickAreaIn(areas, state, Some(lga)).Picked?
  {
    LgaOptionHasRow(areas, state, lga);
    var i :| 0 <= i < |areas| && areas[i].lga == lga && (state != AllStates ==> areas[i].state == state);
    assert HasLgaIn(state, lga)(areas[i]);
  }

  /** The shared-name table of `PickIgnoresState`, under the intended lookup. */
  lemma PickInStateExample(g: Geometry)
    ensures var areas := [AreaRecord("Surulere", "Lagos", 6.5, 3.4, g), AreaRecord("Surulere", "Oyo", 8.1, 4.1, g)];
            PickAreaIn(areas, "Oyo", Some("Surulere")) == Picked(Selected("Surulere", 8.1, 4.1))
  {
    var areas := [AreaRecord("Surulere", "Lagos", 6.5, 3.4, g), AreaRecord("Surulere", "Oyo", 8.1, 4.1, g)];
    assert HasLgaIn("Oyo", "Surulere")(areas[1]);
  }

  /** `min_value`, `max_value` and `value` of the date selector. */
  datatype DateWindow = DateWindow(earliest: Date, latest: Date, initial: Date)

  function DateBounds(today: Date, mode: string): (w: DateWindow)
    ensures w.earliest == today - ForecastDays
    ensures w.latest == if mode == HistoricalMode then today else today + ForecastDays
    ensures w.initial == today
  {
    DateWindow(today - ForecastDays, if mode == HistoricalMode then today else today + ForecastDays, today)
  }

  /** The initial date lies in the window; Historical never reaches the future. */
  lemma DateWindowShape(today: Date, mode: string)
    ensures DateBounds(today, mode).earliest <= DateBounds(today, mode).initial <= DateBounds(today, mode).latest
    ensures mode == HistoricalMode ==> DateBounds(today, mode).latest == DateBounds(today, mode).initial
    ensures DateBounds(today, mode).latest - DateBounds(today, mode).earliest ==
            if mode == HistoricalMode then ForecastDays else 2 * ForecastDays
  {
  }

  /** `(discharge / baseline) if baseline else None`. */
  function Ratio(discharge: real, baseline: Option<real>): (r: Option<real>)
    ensures r.Some? <==> Truthy(baseline)
    ensures r.Some? ==> r.value * baseline.value == discharge
  {
    if Truthy(baseline) then Some(discharge / baseline.value) else None
  }

  /** Without a usable baseline the tier is "N/A", and only then. */
  lemma NoBaselineNoTier(discharge: real, baseline: Option<real>)
    ensures Classify(Ratio(discharge, baseline)) == NotAvailable <==> !Truthy(baseline)
  {
  }

  /** The scenario: baseline 150, discharge 180, ratio 1.2, tier Medium. */
  lemma ExampleRatio()
    ensures Ratio(180.0, Some(150.0)) == Some(1.2)
    ensures Classify(Ratio(180.0, Some(150.0))) == Medium
  {
  }

  /** The four metrics shown for the chosen forecast date. */
  datatype Metrics = Metrics(discharge: real, baseline: Option<real>, ratio: Option<real>, tier: Tier)

  function OnDate(date: Date): Observation -> bool {
    (o: Observation) => o.date == date
  }

  /** The metrics from the first row dated `date`; `None` is the warning
      branch (the date is not in the forecast). */
  function ForecastMetrics(series: seq<Observation>, date: Date, baseline: Option<real>): (m: Option<Metrics>)
    ensures m.Some? <==> exists i :: 0 <= i < |series| && series[i].date == date
    ensures m.Some? ==>
              exists i :: 0 <= i < |series| && series[i].date == date &&
                (forall j :: 0 <= j < i ==> series[j].date != date) &&
                m.value.discharge == series[i].dischargeMax
    ensures m.Some? ==> m.value.baseline == baseline && m.value.ratio == Ratio(m.value.discharge, baseline) &&
                        m.value.tier == Classify(m.value.ratio)
  {
    match FirstIndex(series, OnDate(date))
    case None => None
    case Some(i) =>
      var d := series[i].dischargeMax;
      var r := Ratio(d, baseline);
      Some(Metrics(d, baseline, r, Classify(r)))
  }

  /** `hist_df.iloc[0]['discharge_max']`; `None` is the IndexError of an empty table. */
  function HistoricalDischarge(series: seq<Observation>): (d: Option<real>)
    ensures d.Some? <==> |series| > 0
    ensures d.Some? ==> d.value == series[0].dischargeMax
  {
    if |series| == 0 then None else Some(series[0].dischargeMax)
  }
}
