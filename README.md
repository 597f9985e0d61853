# Storm dashboard chart core, modelled in Dafny

This project models the self-contained core of `docs/utils_geoconf_23.py`, the helper
module behind a dashboard of storm statistics that draws a wind rose and a row of
linked histograms with Altair. It covers four pieces:

- `utils_extent` (module `Geometry`). It builds the bounding-box polygon as GeoJSON:
  a one-element list holding a Polygon with one ring. The ring is closed and runs
  clockwise (the left-hand rule), the reverse of the exterior-ring orientation in
  section 3.1.6 of RFC 7946. Coordinates are exact `real`s, so the shoelace area is
  exact.
- `utils_condition` (module `Conditions`). It builds a two-branch conditional encoding:
  one `(param name, value, empty = false)` branch for each of the first two predicate
  entries, in order, plus a default value. The two calls made for the wind-rose
  stroke (width and colour) are modelled too.
- `utils_chart_single_hist` and `utils_chart_hists` (module `Histograms`). Each bar
  chart is a `Panel` record of what the chart library receives: data, title, the three
  binned columns, the x domain, the log-scaled fill, and the stroke-width condition on
  the panel's own hover selection, which the panel also declares. The panels come from
  a loop over the fixed statistic list. They are then concatenated, with two
  cross-filters and two parameters declared on the `Concat` record.
- The literal reference tables `utils_df_winddirs` and `utils_df_circles`
  (module `ReferenceData`). Each is kept as its two columns.

Modules `Wrappers` (Option, Result) and `Params` (parameter names and triggers) hold
shared types.

The chart library names each unnamed selection from a running counter. The model
makes that counter explicit: `Name.Auto(serial)` is a generated name, `Name.Given(s)`
a chosen one. `Histograms.ChartHists` takes the counter's value on entry and returns
its value afterwards. The model assumes a chosen name never equals a generated one.

What the code does not check, and what it ignores:

- The code does not check that the data frame has a panel's columns. The model
  states the schema fact as a lemma: when the data has `p`, `p_end` and `p_count` for
  every statistic, every panel reads only existing columns.
- The code does not check the x domains. They are literal constants, and the lemma
  `Histograms.TablesCoverPars` shows that each one has lower < upper.
- `utils_condition` reads `predicate[0]` and `predicate[1]`, so a list shorter than
  two raises `IndexError` (modelled as `Failure(IndexError)`). Entries after the
  second are ignored.
- The `xtitle` argument of `utils_chart_single_hist` is accepted but never used. The x
  axis title is set to None.

## Model

| member | source | states |
|---|---|---|
| Geometry.Extent | docs/utils_geoconf_23.py:10-20 | a list of one "Polygon" object with exactly one ring of five positions, and that ring is closed (first position equals last) |
| Geometry.ExtentOrder | docs/utils_geoconf_23.py:16 | the ring starts and ends at (maxx, maxy), then visits (maxx, miny), (minx, miny), (minx, maxy) in that order |
| Geometry.ExtentCorners | docs/utils_geoconf_23.py:16 | the set of positions the ring visits is exactly the four box corners, and every edge is parallel to an axis |
| Geometry.ExtentSignedArea | docs/utils_geoconf_23.py:11-16 | the shoelace signed area of the ring is -(maxx - minx) * (maxy - miny) for every input |
| Geometry.ExtentClockwise | docs/utils_geoconf_23.py:11-16 | the ring is clockwise (negative area) if and only if minx < maxx and miny < maxy, or both ranges are inverted |
| Geometry.ReverseNegatesArea | docs/utils_geoconf_23.py:11 | reversing any ring negates its signed area, so it flips between left-hand and right-hand orientation |
| Geometry.ReversedExtentIsCounterClockwise | docs/utils_geoconf_23.py:11-16 | for a non-degenerate box the reversed ring is closed, has the same corners and a positive area, which is the exterior-ring orientation of RFC 7946 |
| Conditions.ConditionOf | docs/utils_geoconf_23.py:25-31 | the reference N-branch condition: one branch per entry in input order, each with the entry's parameter name and value and empty = false, and the given default |
| Conditions.UtilsCondition | docs/utils_geoconf_23.py:23-32 | fails with IndexError exactly when fewer than two entries are given; otherwise it equals the reference condition on the first two entries |
| Conditions.UtilsConditionShape | docs/utils_geoconf_23.py:25-31 | exactly two branches, naming predicate[0][0].name then predicate[1][0].name, carrying predicate[0][1] and predicate[1][1], both with empty = false, and default if_false (None included) |
| Conditions.UtilsConditionIgnoresRest | docs/utils_geoconf_23.py:27-28 | entries after the second have no effect on the result |
| Conditions.WindroseStrokeWidth | docs/utils_geoconf_23.py:77-79 | the wind-rose stroke width is 2 under the hover selection, 3 under the click selection, in that branch order, default 0 |
| Conditions.WindroseStroke | docs/utils_geoconf_23.py:80-82 | the wind-rose stroke colour is red under hover, then cyan under click, with no default (None) |
| Histograms.SingleHist | docs/utils_geoconf_23.py:100-121 | the panel binds the given bin-start, bin-end and count fields, title and domain, is 150 by 150 with bin step 1 and a log fill scale, and highlights with stroke 2 (else 0, empty = false) on the one hover selection it declares (set on mouseover, cleared on mouseout) |
| Histograms.SingleHistIgnoresXtitle | docs/utils_geoconf_23.py:100-108 | the xtitle argument does not change the chart |
| Histograms.HoverSelection | docs/utils_geoconf_23.py:101 | the hover selection is a point selection set on mouseover and cleared on mouseout, named by the library's counter value |
| Histograms.PanelFor | docs/utils_geoconf_23.py:140-150 | the loop body's panel for statistic p uses fields p, p + "_end" and p + "_count", domain domains[p], title titles[p], the given data, and highlights on its own hover selection |
| Histograms.TablesCoverPars | docs/utils_geoconf_23.py:125-136 | every statistic has a domain and a title, so the lookups never raise KeyError, and every domain has lower < upper |
| Histograms.Concat.TransformFilter | docs/utils_geoconf_23.py:154-155 | appends one filter after the existing ones and leaves the panels and declared params unchanged |
| Histograms.Concat.AddParams | docs/utils_geoconf_23.py:156 | appends the given params, in order, after the declared ones and leaves the panels and filters unchanged |
| Histograms.HistsChart | docs/utils_geoconf_23.py:124-157 | the closed form of the returned chart: one panel per statistic, filters wind direction then location, and exactly those two params declared |
| Histograms.ChartHists | docs/utils_geoconf_23.py:124-157 | the loop, which advances the name counter by one per hover selection it creates, and the fluent concatenation produce exactly HistsChart; the counter ends four past its start |
| Histograms.HistsChartLayout | docs/utils_geoconf_23.py:125-157 | one panel per statistic in the order fase, windfase, windduur, opzetduur, with the panel for Pars[k] at position k bound to its columns, its domain (lower < upper), its title and the data |
| Histograms.HistsChartOwnHovers | docs/utils_geoconf_23.py:101-119 | every panel highlights on its own hover selection, no two panels share one, and when the cross-filter params carry chosen names, no hover selection is one of them |
| Histograms.HistsChartWellDeclared | docs/utils_geoconf_23.py:115-157 | every parameter referenced is declared where it is used: the filter params on the concatenation, each hover param on its panel |
| Histograms.HistsChartColumns | docs/utils_geoconf_23.py:106-146 | with the binned columns present, each panel reads only existing columns; the columns of different panels are pairwise disjoint |
| ReferenceData.UtilsDfWinddirs | docs/utils_geoconf_23.py:174-176 | four wind directions, the k-th being 90 * k degrees, each with its own label, no label repeated |
| ReferenceData.WinddirsAreQuarterTurns | docs/utils_geoconf_23.py:175 | the directions are distinct angles in [0, 360), with no two equal modulo 360, and form exactly the set {0, 90, 180, 270} |
| ReferenceData.UtilsDfCircles | docs/utils_geoconf_23.py:177-179 | five positive circle values in strictly increasing order, with as many labels as values and no label repeated |

## Left out

- Altair and Vega-Lite rendering and semantics are not modelled. This covers the marks, encodings, scales and legends, `resolve_scale` (line 96), `+` layering (line 95), the width and height params (lines 38-39), and the layout `concat` performs. These are calls into a foreign library, so only the arguments passed to it are modelled.
- `utils_chart_rose` (lines 35-97) is modelled only through its two `utils_condition` calls. Everything else in it is chart-library composition.
- Run-time evaluation of conditions, such as which branch wins when hover and click both hold, is not modelled. The rendering engine does that.
- `alt.condition(highlight_bar, alt.value(2), alt.value(0), empty=False)` is modelled as a one-branch condition. Altair emits its branch as a single object rather than a one-element list.
- The angle expressions with pi (lines 49, 62) are library expressions over floating point and are left out. So are the floating-point mark options (stroke widths, offsets, bin spacing).
- The geopandas point data and its coordinate reference system (lines 160-170) are left out, because they belong to a foreign library.
- The CSV reads (lines 182, 186) and the warnings setup (line 7) are I/O and environment setup, and are left out.
- The `df` argument is modelled only by its set of column names. Rows and row-level filtering are not modelled.
- Python coordinates may be floats. The model uses exact reals, so rounding is not modelled.
- Histograms.HistsChartOwnHovers: hover names are distinct from the cross-filter params only when those were given their own names. For auto-named ones, the serials depend on the library's counter before the call, which is outside the core.
