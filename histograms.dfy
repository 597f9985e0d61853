/**
  The histogram panel of `utils_chart_hists`: one bar chart per storm statistic, built
  by `utils_chart_single_hist`, concatenated side by side and cross-filtered on the
  wind-direction and location selections. Each chart is abstracted as the record of
  what is passed to the chart library.
*/
module Histograms {
  import opened Wrappers
  import opened Params
  import opened Conditions

  /** An x-scale domain `[lower, upper]`. */
  datatype Domain = Domain(lower: int, upper: int)

  /** A data frame, by the names of its columns. */
  datatype Table = Table(columns: set<string>)

  /**
    One bar chart of pre-binned data: the bar for a row spans `[binStart, binEnd]`
    on x, its height and its (log-scaled) fill are `countField`; its stroke width
    is the condition on its own hover selection, which it also declares.
  */
  datatype Panel = Panel(
    data: Table, title: string, width: nat, height: nat,
    binStart: string, binEnd: string, countField: string, binStep: nat,
    domain: Domain, fillScale: string,
    strokeWidth: Condition<int>, params: seq<Param>)

  /** Charts placed side by side, with the filters and parameters declared on the whole. */
  datatype Concat = Concat(panels: seq<Panel>, filters: seq<Param>, params: seq<Param>)
  {
    /** `.transform_filter(p)`: keep only the rows selected by `p`. */
    function TransformFilter(p: Param): (r: Concat)
      ensures r.panels == panels && r.params == params
      ensures |r.filters| == |filters| + 1 && r.filters[..|filters|] == filters
      ensures r.filters[|filters|] == p
    {
      Concat(panels, filters + [p], params)
    }

    /** `.add_params(*ps)`. */
    function AddParams(ps: seq<Param>): (r: Concat)
      ensures r.panels == panels && r.filters == filters
      ensures |r.params| == |params| + |ps| && r.params[..|params|] == params
      ensures r.params[|params|..] == ps
    {
      Concat(panels, filters, params + ps)
    }
  }

  /** The statistics charted, in panel order. */
  const Pars: seq<string> := ["fase", "windfase", "windduur", "opzetduur"]

  const Domains: map<string, Domain> := map[
    "fase" := Domain(-6, 6),
    "windfase" := Domain(-24, 24),
    "windduur" := Domain(0, 60),
    "opzetduur" := Domain(0, 40)]

  const Titles: map<string, string> := map[
    "fase" := "surge peak w.r.t. high tide (h)",
    "windfase" := "wind peak w.r.t. high tide (h)",
    "windduur" := "wind duration (h)",
    "opzetduur" := "surge duration (h)"]

  /** The names of a list of parameters. */
  function NamesOf(ps: seq<Param>): set<Name>
  {
    set i | 0 <= i < |ps| :: ps[i].name
  }

  /**
    A panel highlights on its own selection: its stroke width is 2 while the one
    parameter it declares, a point selection set on mouse-over and cleared on
    mouse-out, holds a non-empty selection, and 0 otherwise.
  */
  predicate HighlightsOnOwnHover(p: Panel)
  {
    && |p.params| == 1
    && p.params[0].trigger == PointSelection("mouseover", "mouseout")
    && p.strokeWidth == Condition([Branch(p.params[0].name, 2, false)], Some(0))
  }

  /** The selection `alt.selection_point(on="mouseover", clear="mouseout")` creates. */
  function HoverSelection(serial: nat): (h: Param)
    ensures h.name.Auto? && h.name.serial == serial
    ensures h.trigger.PointSelection? && h.trigger.on == "mouseover" && h.trigger.clear == "mouseout"
  {
    Param(Auto(serial), PointSelection("mouseover", "mouseout"))
  }

  /**
    `utils_chart_single_hist(df, bin_start, bin_end, count, title, xtitle, domain)`;
    `serial` is the library's name counter when the hover selection is created.
  */
  function SingleHist(df: Table, binStart: string, binEnd: string, count: string,
                      title: string, xtitle: string, domain: Domain, serial: nat): (p: Panel)
    ensures HighlightsOnOwnHover(p) && p.params[0].name == Auto(serial)
    ensures p.data == df && p.title == title && p.domain == domain
    ensures p.binStart == binStart && p.binEnd == binEnd && p.countField == count
    ensures p.width == 150 && p.height == 150 && p.binStep == 1 && p.fillScale == "log"
  {
    var highlightBar := HoverSelection(serial);
    Panel(df, title, 150, 150, binStart, binEnd, count, 1, domain, "log",
          ConditionOf([(highlightBar, 2)], Some(0)), [highlightBar])
  }

  /** The x-axis title argument has no effect on the chart (its x title is left empty). */
  lemma SingleHistIgnoresXtitle(df: Table, binStart: string, binEnd: string, count: string,
                                title: string, x1: string, x2: string, domain: Domain,
                                serial: nat)
    ensures SingleHist(df, binStart, binEnd, count, title, x1, domain, serial)
         == SingleHist(df, binStart, binEnd, count, title, x2, domain, serial)
  {
  }

  /**
    The panel the loop body of `utils_chart_hists` builds for statistic `par`: it binds
    `par`, `par_end` and `par_count`, looks up its domain and title, and highlights on a
    hover selection of its own.
  */
  function PanelFor(df: Table, par: string, serial: nat): (p: Panel)
    requires par in Domains && par in Titles
    ensures p.binStart == par && p.binEnd == par + "_end" && p.countField == par + "_count"
    ensures p.domain == Domains[par] && p.title == Titles[par] && p.data == df
    ensures HighlightsOnOwnHover(p) && p.params[0].name == Auto(serial)
  {
    SingleHist(df, par, par + "_end", par + "_count", Titles[par], par, Domains[par], serial)
  }

  /** Every statistic has a domain and a title, and every domain is non-empty. */
  lemma TablesCoverPars()
    ensures forall i :: 0 <= i < |Pars| ==> Pars[i] in Domains && Pars[i] in Titles
    ensures forall par :: par in Domains ==> Domains[par].lower < Domains[par].upper
  {
  }

  /** The columns a panel reads from its data. */
  function FieldsOf(p: Panel): set<string>
  {
    {p.binStart, p.binEnd, p.countField}
  }

  /** The data holds the three binned columns of every statistic. */
  predicate HasBinnedColumns(df: Table)
  {
    forall i :: 0 <= i < |Pars| ==>
      StatColumns(Pars[i]) <= df.columns
  }

  /**
    Every parameter the chart refers to is declared where it is used: each filter
    parameter on the concatenation, each hover parameter on its own panel.
  */
  predicate WellDeclared(c: Concat)
  {
    && (forall i :: 0 <= i < |c.filters| ==> c.filters[i] in c.params)
    && (forall k :: 0 <= k < |c.panels| ==>
          forall j :: 0 <= j < |c.panels[k].strokeWidth.branches| ==>
            c.panels[k].strokeWidth.branches[j].param in NamesOf(c.panels[k].params))
  }

  /**
    The chart `utils_chart_hists` returns: the panel for `Pars[k]` at position k, with
    hover serial `serial + k`, and the wind-direction then location filters and
    parameters declared on the concatenation.
  */
  function HistsChart(df: Table, paramWindDir: Param, paramLocation: Param, serial: nat)
    : (c: Concat)
    ensures |c.panels| == |Pars|
    ensures c.filters == [paramWindDir, paramLocation]
    ensures c.params == [paramWindDir, paramLocation]
  {
    TablesCoverPars();
    Concat(seq(|Pars|, k requires 0 <= k < |Pars| => PanelFor(df, Pars[k], serial + k)),
           [paramWindDir, paramLocation], [paramWindDir, paramLocation])
  }

  /**
    One panel per statistic, in the order of `Pars`; the panel at position k binds
    `Pars[k]`, `Pars[k]_end` and `Pars[k]_count` and takes its domain and title from the
    tables, and has a non-empty domain.
  */
  lemma HistsChartLayout(df: Table, paramWindDir: Param, paramLocation: Param, serial: nat)
    ensures var c := HistsChart(df, paramWindDir, paramLocation, serial);
      && |c.panels| == |Pars|
      && (forall k :: 0 <= k < |Pars| ==>
            && c.panels[k].binStart == Pars[k]
            && c.panels[k].binEnd == Pars[k] + "_end"
            && c.panels[k].countField == Pars[k] + "_count"
            && c.panels[k].domain == Domains[Pars[k]]
            && c.panels[k].title == Titles[Pars[k]]
            && c.panels[k].domain.lower < c.panels[k].domain.upper
            && c.panels[k].data == df)
  {
  }

  /**
    Every panel highlights on a hover selection of its own: no two panels share one,
    and none of them is one of the two cross-filter parameters when those were named
    by their creator.
  */
  lemma HistsChartOwnHovers(df: Table, paramWindDir: Param, paramLocation: Param, serial: nat)
    ensures var c := HistsChart(df, paramWindDir, paramLocation, serial);
      && (forall k :: 0 <= k < |c.panels| ==> HighlightsOnOwnHover(c.panels[k]))
      && (forall i, j :: 0 <= i < j < |c.panels| ==>
            c.panels[i].params[0].name != c.panels[j].params[0].name)
      && (paramWindDir.name.Given? && paramLocation.name.Given? ==>
            forall k :: 0 <= k < |c.panels| ==> c.panels[k].params[0] !in c.params)
  {
  }

  /** Every parameter the chart refers to is declared where it is used. */
  lemma HistsChartWellDeclared(df: Table, paramWindDir: Param, paramLocation: Param,
                               serial: nat)
    ensures WellDeclared(HistsChart(df, paramWindDir, paramLocation, serial))
  {
  }

  /**
    When the data holds `p`, `p_end` and `p_count` for every statistic `p`, each panel
    reads only columns the data has; and no two panels read a common column.
  */
  lemma HistsChartColumns(df: Table, paramWindDir: Param, paramLocation: Param, serial: nat)
    ensures var c := HistsChart(df, paramWindDir, paramLocation, serial);
      && (HasBinnedColumns(df) ==>
            forall k :: 0 <= k < |c.panels| ==> FieldsOf(c.panels[k]) <= df.columns)
      && (forall i, j :: 0 <= i < j < |c.panels| ==>
            FieldsOf(c.panels[i]) !! FieldsOf(c.panels[j]))
  {
    var c := HistsChart(df, paramWindDir, paramLocation, serial);
    HistsChartLayout(df, paramWindDir, paramLocation, serial);
    forall i, j | 0 <= i < j < |c.panels|
      ensures FieldsOf(c.panels[i]) !! FieldsOf(c.panels[j])
    {
      assert FieldsOf(c.panels[i]) == StatColumns(Pars[i]);
      assert FieldsOf(c.panels[j]) == StatColumns(Pars[j]);
      StatColumnsDisjoint(i, j);
    }
  }

  /** The three columns of statistic `par`. */
  function StatColumns(par: string): set<string>
  {
    {par, par + "_end", par + "_count"}
  }

  lemma StatColumnsDisjoint(i: nat, j: nat)
    requires i < j < |Pars|
    ensures StatColumns(Pars[i]) !! StatColumns(Pars[j])
  {
    var a, b := Pars[i], Pars[j];
    var m := if i == 1 && j == 2 then 4 else 0;
    assert m < |a| && m < |b| && a[m] != b[m];
    forall x, y | x in StatColumns(a) && y in StatColumns(b) ensures x != y {
      assert x[m] == a[m] && y[m] == b[m];
    }
  }

  /**
    `utils_chart_hists(df_storms, param_wind_dir, param_location)`: builds the panels in
    a loop over `Pars` and concatenates them; `serial` is the library's name counter
    on entry and `next` its value afterwards.
  */
  method ChartHists(dfStorms: Table, paramWindDir: Param, paramLocation: Param, serial: nat)
    returns (c: Concat, next: nat)
    ensures next == serial + |Pars|
    ensures c == HistsChart(dfStorms, paramWindDir, paramLocation, serial)
  {
    var cPars: seq<Panel> := [];
    next := serial;
    for k := 0 to |Pars|
      invariant |cPars| == k && next == serial + k
      invariant forall i :: 0 <= i < k ==>
        Pars[i] in Domains && Pars[i] in Titles && cPars[i] == PanelFor(dfStorms, Pars[i], serial + i)
    {
      var par := Pars[k];
      var domain := Domains[par];
      var title := Titles[par];
      var cPar := SingleHist(dfStorms, par, par + "_end", par + "_count", title, par, domain,
                             next);
      next := next + 1;
      cPars := cPars + [cPar];
    }
    c := Concat(cPars, [], [])
      .TransformFilter(paramWindDir)
      .TransformFilter(paramLocation)
      .AddParams([paramWindDir, paramLocation]);
  }
}
