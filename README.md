# NaijaFloodWatch core, modelled in Dafny

NaijaFloodWatch is a Streamlit dashboard. The user picks a Nigerian Local Government Area (LGA) and fetches
river-discharge forecasts or historical values. The dashboard then classifies the flood risk against a
baseline recorded during the September 2022 flood. This project models the deterministic logic that sits
between loading the data and rendering it:

- `risk.dfy` (module `Risk`): `determine_risk_level`, a total three-tier classifier over an optional ratio.
- `areas.dfy` (module `Areas`): the row loop of `load_lga_gdf`. It resolves each feature's LGA name through
  the `ADM2_NAME`, `NAME_2`, `NAME`, `LGA_NAME` fallback chain and takes its State from `NAME_1`. It emits one
  row per feature, in feature order, or nothing when any step raises.
- `baseline.dfy` (module `Baseline`): `load_baseline`, a table of (LGA, baseline) rows turned into a map
  where the last row wins.
- `chart.dfy` (module `Chart`): `generate_time_series_chart`, modelled as the data behind the figure. A
  `Figure` class is appended to by `AddTrace`.
- `selection.dfy` (module `Selection`): the value computations of `app.py`. These are the State and LGA
  option lists, the row a choice selects, the date window, the ratio guard and the forecast metrics.
- `session.dfy` (module `Session`): `st.session_state` as a class over a `map`. It covers the mode-change
  reset, the selection writes, the `last_fetch` latch, and one whole script run (`Rerun`).
- `ordering.dfy` (module `Ordering`): Python's string order, `sorted` and pandas' `unique`, with proofs that
  the order is total and that a sorted arrangement is unique. So the insertion sort used here gives the same
  list that Python's `sorted` gives.
- `common.dfy` (module `Common`): `Option`, Python truthiness of an optional float, discharge observations,
  and the "first row matching a mask" lookup.

Inputs are already parsed. A GeoJSON document is an optional sequence of features, each with optional
`properties` and `geometry`. A CSV is an optional sequence of rows. `None` stands for the file or member that
makes the source raise. Dates are day numbers. Discharges and ratios are `real`.

In two places the model follows the code where a reader might expect otherwise:
- The baseline guard is Python truthiness (`if baseline:`), so a negative baseline still yields a ratio. It
  is not treated as "absent".
- The chart gets only the dashed baseline line. The code adds no 0.8×/1.2× threshold lines.

## Model

| member | source | states |
|---|---|---|
| `Risk.Classify` | utils.py:85-95 | absent ratio ⇔ N/A; r ≤ 0.8 ⇔ Low; 0.8 < r ≤ 1.2 ⇔ Medium; r > 1.2 ⇔ High (each tier in both directions, so every input gets exactly one tier) |
| `Risk.DetermineRiskLevel` | utils.py:88-95 | the returned (label, colour) pair is ("N/A", "#f7f7f7"), ("Low", "#4CAF50"), ("Medium", "#FFC107") or ("High", "#F44336") for the four ratio ranges |
| `Risk.ClassifyCountsCeilings` | utils.py:90-95 | an independent reading: a present ratio's tier rank is one plus the number of ceilings (0.8, 1.2) strictly below it |
| `Risk.ClassifyMonotone` | utils.py:90-95 | r1 ≤ r2 implies tier(r1) ≤ tier(r2) in the order Low < Medium < High |
| `Risk.ClassifyBoundaries` | utils.py:90-93 | 0.8 is Low, 1.2 is Medium, 1.2000001 is High |
| `Risk.DisplayIdentifiesTier` | utils.py:88-95 | distinct tiers have distinct labels and distinct colours |
| `Ordering.Le` | app.py:130-135 | Python's `<=` on `str`: a prefix comes before every longer string that starts with it, and a longer string never comes before its own prefix |
| `Ordering.LeFirstDifference` | app.py:130-135 | past a common prefix, the first differing code point decides the order |
| `Ordering.LeTotal` | app.py:130 | any two strings are comparable in Python's order |
| `Ordering.LeAntisymmetric` | app.py:130 | strings that are ≤ each other are equal |
| `Ordering.LeTransitive` | app.py:130 | Python's string order is transitive |
| `Ordering.Insert` | app.py:130 | inserting into an ascending list gives an ascending list with one more occurrence of the value |
| `Ordering.Sort` | app.py:130-135 | `sorted`: the result is ascending and a permutation of the input (equal multisets) |
| `Ordering.SortedIsUnique` | app.py:130-135 | two ascending permutations of the same multiset are equal, so the result of `sorted` is fully determined |
| `Ordering.SortKeepsMembers` | app.py:130 | sorting neither adds nor drops a value |
| `Ordering.Unique` | app.py:130 | `unique()`: no value twice, and exactly the values of the column |
| `Ordering.SortKeepsNoDuplicates` | app.py:130 | sorting a duplicate-free list keeps it duplicate-free |
| `Areas.Named` | utils.py:23 | `props.get(key)` is truthy exactly when the key is present with a non-empty value |
| `Areas.FirstName` | utils.py:23 | the result is never empty. It is the value of the first key whose value is non-empty (all earlier keys absent or empty), or "Unknown" when no key has a non-empty value |
| `Areas.ResolveName` | utils.py:23 | the LGA name from the ADM2_NAME, NAME_2, NAME, LGA_NAME chain is never empty |
| `Areas.ResolveState` | utils.py:24 | the State is NAME_1 whenever that key is present, even if empty; the "Unknown" default is used only when the key is absent |
| `Areas.AreaOf` | utils.py:19-32 | one feature yields a row exactly when it has properties and a geometry whose centroid can be taken; the row's name is non-empty and its geometry is the feature's |
| `Areas.LoadLgaRows` | utils.py:9-38 | no table exactly when the document is missing or some feature cannot be read; otherwise one row per feature, the i-th row built from the i-th feature |
| `Areas.LoadedRowContents` | utils.py:19-32 | each loaded row has a non-empty resolved name, the resolved State, lat = centroid.y, lon = centroid.x and the feature's geometry unchanged |
| `Areas.NameFallsThroughEmptyKey` | utils.py:23 | an empty ADM2_NAME falls through to NAME_2 |
| `Areas.EmptyStateIsKept` | utils.py:24 | an empty NAME_1 is kept as the State; a missing one gives "Unknown" |
| `Areas.ExampleFeature` | utils.py:18-32 | a feature named "Example LGA" in "Example State" with centroid (8.0, 9.0) gives that row with lat 9.0 and lon 8.0 |
| `Baseline.BaselineMap` | utils.py:45 | the map's keys are exactly the LGA names of the rows |
| `Baseline.LoadBaseline` | utils.py:41-48 | a failed read gives the empty map; otherwise the keys are the table's names |
| `Baseline.LastRowWins` | utils.py:45 | a row that no later row renames supplies the map's value for its name |
| `Baseline.ValueFromLastRow` | utils.py:45 | every value in the map comes from the last row carrying its name |
| `Baseline.DuplicateNameKeepsLast` | utils.py:45 | rows ("X", 10) then ("X", 20) give {"X": 20} |
| `Chart.Figure.constructor` | utils.py:59 | a new figure has no lines |
| `Chart.Figure.AddTrace` | utils.py:60-73 | `add_trace` appends exactly one line and changes nothing else |
| `Common.Truthy` | utils.py:66 | `if baseline:` holds exactly for a present, non-zero baseline (the same test guards the ratio at app.py:175) |
| `Chart.PrimaryTrace` | utils.py:60-65 | the line named "Forecast Discharge" has the i-th row's date as its i-th x and that row's discharge as its i-th y |
| `Chart.BaselineTrace` | utils.py:66-73 | the line named "Baseline" has the table's dates as x-values and the baseline at every point |
| `Chart.ChartLines` | utils.py:54-80 | "no chart" exactly for an absent or empty table; otherwise the forecast line first, then the baseline line exactly when the baseline is truthy |
| `Chart.GenerateTimeSeriesChart` | utils.py:54-80 | "no chart" exactly for an absent or empty table. Otherwise the first line is the forecast line, and a second, baseline line exists exactly when the baseline is truthy (present and non-zero); the figure's lines are those of `ChartLines` |
| `Chart.PrimaryTracePlotsSeries` | utils.py:60-65 | the forecast line plots exactly the input (date, discharge) pairs, in input order |
| `Chart.BaselineTraceIsFlat` | utils.py:66-73 | the baseline line has the forecast's x-values and the baseline value at every point |
| `Common.FirstIndex` | app.py:138 | the index found satisfies the mask and no earlier element does, and nothing is found exactly when no element satisfies it |
| `Selection.StateOptions` | app.py:130-131 | "All" first, then each State exactly once, ascending, and exactly the States that occur in the table |
| `Selection.LgasOf` | app.py:133 | each name occurs exactly as many times as there are rows with the given State and that name (duplicates kept), so exactly the LGAs of those rows appear |
| `Selection.LgasOfKeepsDuplicates` | app.py:133 | two rows ("X", "S") give the list ["X", "X"] for State "S" |
| `Selection.LgaOptions` | app.py:132-135 | ascending. It is a permutation (duplicates kept) of the LGAs of the chosen State's rows, or of every row when "All" is chosen |
| `Selection.LgaOptionHasRow` | app.py:132-138 | every offered LGA names a row, of the chosen State unless "All" is chosen |
| `Selection.PickArea` | app.py:137-141 | an absent or empty choice picks nothing. Otherwise the pick is the name with the lat/lon of the first row in source order carrying it, or an IndexError exactly when no row carries it |
| `Selection.OfferedChoiceIsFound` | app.py:136-138 | for a table with non-empty names, a choice taken from the LGA options always finds its row |
| `Selection.PickIgnoresState` | app.py:131-141 | with "Surulere" in both Lagos and Oyo (Lagos first), choosing it under Oyo is offered but stores the Lagos row's lat/lon |
| `Selection.PickAreaIn` | app.py:131-141 | the intended lookup: nothing for an absent or empty choice; otherwise the first row with the name within the chosen State (any State for "All"), or an IndexError exactly when no such row exists |
| `Selection.PickAreaInAll` | app.py:134-138 | with "All" chosen, the intended lookup gives exactly the script's pick |
| `Selection.OfferedChoiceStaysInState` | app.py:131-138 | under the intended lookup a non-empty offered choice always finds a row of the chosen State |
| `Selection.PickInStateExample` | app.py:131-141 | the Surulere table under the intended lookup gives the Oyo row's lat/lon |
| `Selection.DateBounds` | app.py:142-147 | min = today − 7; max = today in Historical mode, otherwise today + 7; default today |
| `Selection.DateWindowShape` | app.py:143-147 | the default lies inside the window. The Historical window ends today and spans 7 days; the Forecast window spans 14 days |
| `Selection.Ratio` | app.py:175 | a ratio exists exactly when the baseline is truthy, and then ratio × baseline = discharge |
| `Selection.NoBaselineNoTier` | app.py:175-176 | the tier is N/A exactly when the baseline is not truthy |
| `Selection.ExampleRatio` | app.py:175-176 | discharge 180 against baseline 150 gives ratio 1.2 and tier Medium |
| `Selection.ForecastMetrics` | app.py:172-186 | metrics exist exactly when the date occurs in the forecast. They then use the first row with that date and carry the guarded ratio and its tier; otherwise the warning branch runs |
| `Selection.HistoricalDischarge` | app.py:192 | the observed discharge is the first row's; an empty table raises the IndexError of `iloc[0]`, which is `None` here, so `HistoricalView(None)` is that raise and no metric is shown |
| `Session.ModeChanged` | app.py:121 | a session with no stored mode always counts as changed; an unchanged mode means the stored mode is this one |
| `Session.AfterModeCheck` | app.py:121-124 | the mode check keeps the session invariant and always leaves the selected mode stored; when the stored mode equals the selected one the session is unchanged |
| `Session.ModeResetIsExact` | app.py:121-124 | on a mode change exactly sel_lga, lat, lon, forecast_data, historical_data and last_fetch are removed and mode is set; every other key keeps its value |
| `Session.ModeCheckIdempotent` | app.py:121-124 | running the mode check twice with the same mode is the same as running it once |
| `Session.SelectWrites` | app.py:139-141 | the selection writes set sel_lga, lat and lon, keep the session invariant and the latch, and leave every other key as it was |
| `Session.SessionState.constructor` | app.py:121-124 | a new session has no entries (so `get('mode')` is None and the first run resets) and satisfies the invariant |
| `Session.SessionState.ResetOnModeChange` | app.py:121-124 | the pop loop leaves the session as the mode check prescribes (unchanged when the modes are equal) and keeps the session invariant |
| `Session.SessionState.Select` | app.py:139-141 | stores sel_lga, lat and lon together and leaves the latch as it was |
| `Session.SessionState.LatchFetch` | app.py:159-160 | the fetch block runs iff the button was pressed or the latch was set, and afterwards the latch is set iff the block ran |
| `Session.SessionState.Store` | app.py:165 | stores the fetched table under its key and nothing else |
| `Session.BaselineFor` | app.py:157 | `baseline_map.get` is present exactly for names in the map, with the map's value |
| `Session.FetchOutcome` | app.py:154-194 | the fetch block keeps the session invariant and the stored selection: sel_lga, lat and lon keep their values |
| `Session.FetchViews` | app.py:159-192 | the fetch block shows nothing iff neither the button nor the latch asks for a fetch. It shows the failure view iff the mode's fetch raised. In Forecast mode an empty table stops at the chart (app.py:169-170), after storing the table and the latch; a non-empty one gives the forecast view. In Historical mode a returned table gives the historical view, which holds `None` (the IndexError of app.py:192, after storing the table and the latch) when the table is empty. The latch is set afterwards iff the block ran |
| `Session.ForecastViewContents` | app.py:162-186 | a forecast view comes from a non-empty table. It carries the chart of the whole table and the chosen date's metrics, and the session changes only in last_fetch and forecast_data |
| `Session.FetchBlock` | app.py:154-194 | leaves exactly the view and session of `FetchOutcome`. It states which view comes from which fetch result (both directions, with the empty forecast table stopping at the chart), the whole new session, the chart and the metrics |
| `Session.RunOutcome` | app.py:73-194 | a whole run keeps the session invariant |
| `Session.RunStops` | app.py:73-124 | a failed load is LoadFailed and the About mode is AboutPage, both with the session untouched; any other run stores the selected mode |
| `Session.RunPicks` | app.py:130-152 | NoSuchRowError iff the pick finds no row; Prompt iff nothing is picked and no selection survives the mode check; a successful pick stores its name, lat and lon |
| `Session.RunLatch` | app.py:121-160 | for a run that gets past the pick (not LoadFailed, AboutPage or NoSuchRowError), the latch is set afterwards iff a selection exists and the button was pressed or the latch survived the mode check. A latch survives every run that keeps the mode |
| `Session.Rerun` | app.py:73-194 | leaves exactly the view and session of `RunOutcome`. A failed load or the About page leaves the session untouched; otherwise the mode is stored. NoSuchRowError and Prompt happen exactly in the cases of `RunPicks`, and a pick is stored. For a run that gets past the pick (not LoadFailed, AboutPage or NoSuchRowError), the latch is set iff a selection exists and either the button was pressed or the latch survived the mode check. So it stays set until a run that performs the reset of app.py:121-124 removes it; the About page changes the selected mode without removing it. A run that stops at the chart had an empty forecast table, which it stored |

## Left out

- Centroid computation (shapely's `shape(...).centroid`) is a function parameter `Geometry -> Option<Point>`. `None` stands for a geometry shapely rejects.
- JSON parsing (`json.load`) and CSV parsing (`pd.read_csv`) are not modelled. Their output is the input of the model, and `None` stands for an unreadable file or a missing member or column.
- GeoJSON property values are modelled as strings only. Truthiness is non-emptiness. JSON `null` or numeric property values are not modelled.
- `Baseline.LoadBaseline`: the baseline column is modelled as `real`. Missing cells (NaN) and non-numeric cells are not modelled.
- The fetch client (HTTP calls to the flood API) is external. `Rerun` takes its result as a parameter, and that result is not tied to the stored coordinates. A raised fetch error is `None`.
- Streamlit widgets, CSS/HTML, `st.error` messages, `st.cache_data` memoisation and the About page's text are not modelled. `Rerun` takes the widgets' returned values as parameters. It does not rebuild the option lists or the date window; `OfferedChoiceIsFound` and `DateBounds` cover those.
- `datetime.date.today()` is a parameter of `DateBounds`.
- Plotly styling (titles, dash style, hovermode, layout) is not modelled; the figure is its list of lines.
- `Session.FetchOutcome`: the view `ChartRejected` assumes that `st.plotly_chart` raises when it is given the `None` that `generate_time_series_chart` returns for an empty table (app.py:169-170, utils.py:57-58). That behaviour belongs to Streamlit/Plotly, which are not part of this model.
- `Chart.GenerateTimeSeriesChart`: the `except` branch (utils.py:81-83) cannot be reached in the model, because the table is typed and always has both columns.
- `Risk.DetermineRiskLevel`: the `except` branch (utils.py:96-98) cannot be reached, because the ratio is an optional real.
- `.2f` formatting of the metrics is not modelled, and neither is the "-" shown for a zero ratio (app.py:178-180).
- IEEE floating point (rounding, NaN truthiness) is not modelled; numbers are exact reals.
- `Session.SessionState.LatchFetch`: only the value `True`, the only value the script stores under `last_fetch`, counts as a set latch. The truthiness of other value types is not modelled.
- `static_map.py` (matplotlib/geopandas rendering) and `fetch_open_meteo.py` are not part of this model. One is presentation; the other is network plumbing.

## Findings

| source | as written | input that shows it | evidently intended | confidence | as-written member | corrected member |
|---|---|---|---|---|---|---|
| app.py:138 | the chosen LGA is looked up in the whole table (`lga_gdf['LGA'] == lga`), ignoring the chosen State | rows ("Surulere", "Lagos") then ("Surulere", "Oyo"); State "Oyo", LGA "Surulere" stores the Lagos centroid | look the name up within the chosen State's rows | medium; read from the code, not executed | `Selection.PickIgnoresState` (on `Selection.PickArea`) | `Selection.PickAreaIn`, with `Selection.OfferedChoiceStaysInState`, `Selection.PickAreaInAll` and `Selection.PickInStateExample` |

`Session.Rerun` keeps the lookup as the script writes it, because it models the script's run; the run takes the
LGA choice but not the State choice, and `PickAreaInAll` shows the two lookups agree whenever "All" is chosen.
