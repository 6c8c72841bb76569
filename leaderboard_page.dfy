/**
 * app/leaderboard/page.tsx: the leaderboard. From the statistics of the saved runs and the
 * models of the config file it builds three top-5 bar charts (speed, latency, price) and a
 * comparison table that can be searched and filtered. Rendering, and the `toFixed` labels,
 * are not modelled.
 */
module LeaderboardPage {
  import opened Wrappers
  import opened Text
  import opened Seqs
  import opened StableSort
  import opened LeaderboardStore

  /** A model of `/api/config-models` as the page receives it; a number JSON could not carry is `None`. */
  datatype ConfigModel = ConfigModel(
    model: string,
    context: Option<string>,
    inputCost: Option<real>,
    outputCost: Option<real>,
    speed: Option<real>,
    latency: Option<real>)

  function ConfigName(c: ConfigModel): string {
    c.model
  }

  /** The context shown for a model the config file does not describe: an em dash. */
  const NoContext: string := "\U{2014}"

  /** `toThemeCoherence`: a dash (`None`) for an average that is not positive, else the average over 4. */
  function ThemeCoherence(avgTotal: real): (r: Option<real>)
    ensures r.None? <==> avgTotal <= 0.0
    ensures r.Some? ==> r.value * 4.0 == avgTotal
  {
    if avgTotal <= 0.0 then None else Some(avgTotal / 4.0)
  }

  /** Totals of at most 40 give a coherence of at most 10. */
  lemma {:induction false} ThemeCoherenceRange(avgTotal: real)
    requires 0.0 < avgTotal <= 40.0
    ensures ThemeCoherence(avgTotal).Some? && 0.0 < ThemeCoherence(avgTotal).value <= 10.0
  {
  }

  /** `byModel[model]`: the last config entry naming the model (later entries overwrite earlier ones). */
  function LastConfig(configs: seq<ConfigModel>, model: string): (r: Option<ConfigModel>)
    ensures r.Some? ==> r.value in configs && r.value.model == model
    ensures r.None? ==> forall k :: 0 <= k < |configs| ==> configs[k].model != model
  {
    if configs == [] then None
    else if configs[|configs| - 1].model == model then Some(configs[|configs| - 1])
    else LastConfig(configs[..|configs| - 1], model)
  }

  /** The `byModel` loop: a map from each model name to the last config entry naming it. */
  method ByModel(configs: seq<ConfigModel>) returns (byModel: map<string, ConfigModel>)
    ensures forall model :: model in byModel <==> LastConfig(configs, model).Some?
    ensures forall model :: model in byModel ==> byModel[model] == LastConfig(configs, model).value
  {
    byModel := map[];
    var i := 0;
    while i < |configs|
      invariant 0 <= i <= |configs|
      invariant forall model :: model in byModel <==> LastConfig(configs[..i], model).Some?
      invariant forall model :: model in byModel ==> byModel[model] == LastConfig(configs[..i], model).value
    {
      assert configs[..i + 1][..i] == configs[..i];
      byModel := byModel[configs[i].model := configs[i]];
      i := i + 1;
    }
    assert configs[..i] == configs;
  }

  /** `x => x.model === model`. */
  function Names(model: string): ModelStats -> bool {
    (x: ModelStats) => x.model == model
  }

  /** `stats.find(x => x.model === model)`. */
  function FindStats(stats: seq<ModelStats>, model: string): (r: Option<ModelStats>)
    ensures r.Some? ==> r.value in stats && r.value.model == model
    ensures r.None? ==> forall k :: 0 <= k < |stats| ==> stats[k].model != model
    ensures stats != [] && stats[0].model == model ==> r == Some(stats[0])
  {
    match Find(stats, Names(model))
    case None => None
    case Some(i) => Some(stats[i])
  }

  /** One bar: the model and the value that ranks it. */
  datatype Bar = Bar(name: string, value: real)

  function BarValue(b: Bar): real {
    b.value
  }

  /** A chart: its bars and the scale `maxV`. */
  datatype Chart = Chart(rows: seq<Bar>, maxV: real)

  /** How many bars a chart shows. */
  const TopCount: nat := 5

  /** `Math.max(m, ...values)`. */
  function MaxValue(m: real, bars: seq<Bar>): (r: real)
    ensures r >= m
    ensures forall k :: 0 <= k < |bars| ==> bars[k].value <= r
    ensures r == m || exists k :: 0 <= k < |bars| && bars[k].value == r
  {
    if bars == [] then m
    else
      var rest := MaxValue(m, bars[1..]);
      if bars[0].value > rest then bars[0].value else rest
  }

  /** The sort by descending value (stable), the first five, and a scale of at least 1. */
  function Top(bars: seq<Bar>): (chart: Chart)
    ensures |chart.rows| == if |bars| < TopCount then |bars| else TopCount
    ensures NonIncreasing(chart.rows, BarValue)
    ensures multiset(chart.rows) <= multiset(bars)
    ensures chart.maxV >= 1.0
    ensures forall k :: 0 <= k < |chart.rows| ==> chart.rows[k].value <= chart.maxV
  {
    var sorted := SortDesc(bars, BarValue);
    SortDescSorted(bars, BarValue);
    var rows := Prefix(sorted, TopCount);
    assert sorted == rows + sorted[|rows|..];
    assert multiset(sorted) == multiset(rows) + multiset(sorted[|rows|..]);
    Chart(rows, MaxValue(1.0, rows))
  }

  /** No bar left out of a chart has a larger value than a bar shown. */
  lemma {:induction false} TopIsLargest(bars: seq<Bar>, x: Bar, y: Bar)
    requires x in multiset(bars) - multiset(Top(bars).rows)
    requires y in Top(bars).rows
    ensures x.value <= y.value
  {
    var sorted := SortDesc(bars, BarValue);
    SortDescSorted(bars, BarValue);
    var rows := Top(bars).rows;
    assert rows == sorted[..|rows|];
    SortedTail(sorted, |rows|, x, y);
  }

  /** In a list sorted by descending value, an element past the first `n` is no larger than one of them. */
  lemma {:induction false} SortedTail(sorted: seq<Bar>, n: nat, x: Bar, y: Bar)
    requires n <= |sorted| && NonIncreasing(sorted, BarValue)
    requires x in multiset(sorted) - multiset(sorted[..n])
    requires y in sorted[..n]
    ensures x.value <= y.value
  {
    assert sorted == sorted[..n] + sorted[n..];
    assert multiset(sorted) == multiset(sorted[..n]) + multiset(sorted[n..]);
    assert x in multiset(sorted[n..]);
    var i :| n <= i < |sorted| && sorted[i] == x;
    var j :| 0 <= j < n && sorted[j] == y;
    assert BarValue(sorted[j]) >= BarValue(sorted[i]);
  }

  /** The bars ranked by the speed and latency charts: the config models, or the models with statistics when there are none. */
  function ChartModels(configs: seq<ConfigModel>, stats: seq<ModelStats>): seq<string> {
    if configs != [] then Map(configs, ConfigName) else Map(stats, StatsModel)
  }

  /** The speed chart's value: the config's `speed`, else the inverse of the average latency (0 when there is none or it is 0). */
  function SpeedValue(model: string, configs: seq<ConfigModel>, stats: seq<ModelStats>): (v: real)
    ensures LastConfig(configs, model).Some? && LastConfig(configs, model).value.speed.Some? ==> v == LastConfig(configs, model).value.speed.value
    ensures !(LastConfig(configs, model).Some? && LastConfig(configs, model).value.speed.Some?) ==>
      if FindStats(stats, model).None? || FindStats(stats, model).value.avgLatencyS == 0.0 then v == 0.0
      else v * FindStats(stats, model).value.avgLatencyS == 1.0
  {
    var cfg := LastConfig(configs, model);
    if cfg.Some? && cfg.value.speed.Some? then cfg.value.speed.value
    else
      var s := FindStats(stats, model);
      if s.None? || s.value.avgLatencyS == 0.0 then 0.0 else 1.0 / s.value.avgLatencyS
  }

  /** The latency chart's value: the inverse of the config's `latency` or else of the average latency; 0 for a latency that is not positive. */
  function LatencyValue(model: string, configs: seq<ConfigModel>, stats: seq<ModelStats>): (v: real)
    ensures v >= 0.0
    ensures v == 0.0 <==> Latency(model, configs, stats) <= 0.0
    ensures v > 0.0 ==> v * Latency(model, configs, stats) == 1.0
  {
    var lat := Latency(model, configs, stats);
    if lat > 0.0 then 1.0 / lat else 0.0
  }

  /** The latency in seconds the latency chart uses: the config's, else the statistics', else 0. */
  function Latency(model: string, configs: seq<ConfigModel>, stats: seq<ModelStats>): real {
    var cfg := LastConfig(configs, model);
    if cfg.Some? && cfg.value.latency.Some? then cfg.value.latency.value
    else
      var s := FindStats(stats, model);
      if s.Some? then s.value.avgLatencyS else 0.0
  }

  /** The price chart's value: the inverse of the input price, or 0 unless the price is a positive number. */
  function CheapValue(c: ConfigModel): (v: real)
    ensures v >= 0.0
    ensures v > 0.0 <==> c.inputCost.Some? && c.inputCost.value > 0.0
    ensures v > 0.0 ==> v * c.inputCost.value == 1.0
  {
    if c.inputCost.Some? && c.inputCost.value > 0.0 then 1.0 / c.inputCost.value else 0.0
  }

  /** A chart of models ranked by `value`: the five of largest value, largest first. */
  function ModelChart(models: seq<string>, value: string -> real): (chart: Chart)
    ensures |chart.rows| == if |models| < TopCount then |models| else TopCount
    ensures NonIncreasing(chart.rows, BarValue) && chart.maxV >= 1.0
    ensures forall k :: 0 <= k < |chart.rows| ==> chart.rows[k].name in models && chart.rows[k].value == value(chart.rows[k].name)
    ensures forall i, k :: 0 <= i < |models| && 0 <= k < |chart.rows| && Bar(models[i], value(models[i])) !in chart.rows ==>
      value(models[i]) <= chart.rows[k].value
  {
    var bars := Map(models, m => Bar(m, value(m)));
    LabelsKept(bars, models);
    ValuesKept(bars, value);
    TopShowsLargest(bars);
    Top(bars)
  }

  /** The speed chart: the five models of largest `SpeedValue`, fastest first. */
  function FastestBars(configs: seq<ConfigModel>, stats: seq<ModelStats>): (chart: Chart)
    ensures var n := |ChartModels(configs, stats)|; |chart.rows| == if n < TopCount then n else TopCount
    ensures NonIncreasing(chart.rows, BarValue) && chart.maxV >= 1.0
    ensures forall k :: 0 <= k < |chart.rows| ==>
      chart.rows[k].name in ChartModels(configs, stats) && chart.rows[k].value == SpeedValue(chart.rows[k].name, configs, stats)
    ensures var models := ChartModels(configs, stats);
      forall i, k :: 0 <= i < |models| && 0 <= k < |chart.rows| && Bar(models[i], SpeedValue(models[i], configs, stats)) !in chart.rows ==>
        SpeedValue(models[i], configs, stats) <= chart.rows[k].value
  {
    ModelChart(ChartModels(configs, stats), m => SpeedValue(m, configs, stats))
  }

  /** The latency chart: the five models of largest `LatencyValue`, that is of smallest positive latency. */
  function LatencyBars(configs: seq<ConfigModel>, stats: seq<ModelStats>): (chart: Chart)
    ensures var n := |ChartModels(configs, stats)|; |chart.rows| == if n < TopCount then n else TopCount
    ensures NonIncreasing(chart.rows, BarValue) && chart.maxV >= 1.0
    ensures forall k :: 0 <= k < |chart.rows| ==> chart.rows[k].value >= 0.0
    ensures forall k :: 0 <= k < |chart.rows| ==>
      chart.rows[k].name in ChartModels(configs, stats) && chart.rows[k].value == LatencyValue(chart.rows[k].name, configs, stats)
    ensures var models := ChartModels(configs, stats);
      forall i, k :: 0 <= i < |models| && 0 <= k < |chart.rows| && Bar(models[i], LatencyValue(models[i], configs, stats)) !in chart.rows ==>
        LatencyValue(models[i], configs, stats) <= chart.rows[k].value
  {
    ModelChart(ChartModels(configs, stats), m => LatencyValue(m, configs, stats))
  }

  /** The bar of one config in the price chart: its model and its `CheapValue`. */
  function CheapBar(c: ConfigModel): Bar {
    Bar(c.model, CheapValue(c))
  }

  /** The price chart: the five configs of largest `CheapValue`, that is of smallest positive input price. */
  function CheapBars(configs: seq<ConfigModel>): (chart: Chart)
    ensures |chart.rows| == if |configs| < TopCount then |configs| else TopCount
    ensures NonIncreasing(chart.rows, BarValue) && chart.maxV >= 1.0
    ensures forall k :: 0 <= k < |chart.rows| ==> chart.rows[k].value >= 0.0
    ensures forall k :: 0 <= k < |chart.rows| ==> chart.rows[k] in Map(configs, CheapBar)
    ensures forall i, k :: 0 <= i < |configs| && 0 <= k < |chart.rows| && CheapBar(configs[i]) !in chart.rows ==>
      CheapValue(configs[i]) <= chart.rows[k].value
  {
    var bars := Map(configs, CheapBar);
    RowsAreBars(bars);
    NonNegativeKept(bars);
    TopShowsLargest(bars);
    Top(bars)
  }

  /** Every chart row is one of the bars. */
  lemma {:induction false} RowsAreBars(bars: seq<Bar>)
    ensures forall k :: 0 <= k < |Top(bars).rows| ==> Top(bars).rows[k] in bars
  {
    var rows := Top(bars).rows;
    forall k | 0 <= k < |rows| ensures rows[k] in bars {
      assert rows[k] in multiset(bars);
    }
  }

  /** When every bar's value is `value` of its label, so is every chart row's. */
  lemma {:induction false} ValuesKept(bars: seq<Bar>, value: string -> real)
    requires forall k :: 0 <= k < |bars| ==> bars[k].value == value(bars[k].name)
    ensures forall k :: 0 <= k < |Top(bars).rows| ==> Top(bars).rows[k].value == value(Top(bars).rows[k].name)
  {
    RowsAreBars(bars);
  }

  /** A bar that is not shown is no larger than any bar shown. */
  lemma {:induction false} TopShowsLargest(bars: seq<Bar>)
    ensures forall i, k :: 0 <= i < |bars| && 0 <= k < |Top(bars).rows| && bars[i] !in Top(bars).rows ==>
      bars[i].value <= Top(bars).rows[k].value
  {
    var rows := Top(bars).rows;
    forall i, k | 0 <= i < |bars| && 0 <= k < |rows| && bars[i] !in rows ensures bars[i].value <= rows[k].value {
      assert bars[i] in multiset(bars);
      assert multiset(rows)[bars[i]] == 0;
      TopIsLargest(bars, bars[i], rows[k]);
    }
  }

  /** A label of every bar of the input is a label of every chart row. */
  lemma {:induction false} LabelsKept(bars: seq<Bar>, labels: seq<string>)
    requires forall k :: 0 <= k < |bars| ==> bars[k].name in labels
    ensures forall k :: 0 <= k < |Top(bars).rows| ==> Top(bars).rows[k].name in labels
  {
    var rows := Top(bars).rows;
    forall k | 0 <= k < |rows| ensures rows[k].name in labels {
      assert rows[k] in multiset(bars);
      var i :| 0 <= i < |bars| && bars[i] == rows[k];
    }
  }

  lemma {:induction false} NonNegativeKept(bars: seq<Bar>)
    requires forall k :: 0 <= k < |bars| ==> bars[k].value >= 0.0
    ensures forall k :: 0 <= k < |Top(bars).rows| ==> Top(bars).rows[k].value >= 0.0
  {
    var rows := Top(bars).rows;
    forall k | 0 <= k < |rows| ensures rows[k].value >= 0.0 {
      assert rows[k] in multiset(bars);
      var i :| 0 <= i < |bars| && bars[i] == rows[k];
    }
  }

  /** One row of the comparison table. */
  datatype Row = Row(
    model: string,
    context: string,
    inputCost: Option<real>,
    outputCost: Option<real>,
    avgTotal: real,
    wins: nat,
    avgLatencyS: real)

  function RowModel(r: Row): string {
    r.model
  }

  /** The row of one model: its config data (context "—" without one) and its statistics (zeros without them). */
  function RowFor(model: string, stats: seq<ModelStats>, configs: seq<ConfigModel>): (r: Row)
    ensures r.model == model
    ensures LastConfig(configs, model).None? ==> r.context == NoContext && r.inputCost.None? && r.outputCost.None?
    ensures FindStats(stats, model).None? ==> r.avgTotal == 0.0 && r.wins == 0 && r.avgLatencyS == 0.0
    ensures FindStats(stats, model).Some? ==> r.avgTotal == FindStats(stats, model).value.avgTotal
  {
    var s := FindStats(stats, model);
    var c := LastConfig(configs, model);
    Row(
      model,
      if c.Some? && c.value.context.Some? then c.value.context.value else NoContext,
      if c.Some? then c.value.inputCost else None,
      if c.Some? then c.value.outputCost else None,
      if s.Some? then s.value.avgTotal else 0.0,
      if s.Some? then s.value.wins else 0,
      if s.Some? then s.value.avgLatencyS else 0.0)
  }

  /** The models of the table: the set filled with the statistics' models, then the config's. */
  function TableModels(stats: seq<ModelStats>, configs: seq<ConfigModel>): seq<string> {
    Dedup(Map(stats, StatsModel) + Map(configs, ConfigName))
  }

  /** The two `for` loops adding to the set, in insertion order. */
  method CollectModels(stats: seq<ModelStats>, configs: seq<ConfigModel>) returns (models: seq<string>)
    ensures models == TableModels(stats, configs)
  {
    var fromStats := Map(stats, StatsModel);
    models := AddAll([], [], fromStats);
    assert [] + fromStats == fromStats;
    models := AddAll(fromStats, models, Map(configs, ConfigName));
  }

  /** `comparisonRows`. */
  function ComparisonRows(stats: seq<ModelStats>, configs: seq<ConfigModel>): (rows: seq<Row>)
    ensures Map(rows, RowModel) == TableModels(stats, configs)
  {
    var models := TableModels(stats, configs);
    var rows := Map(models, m => RowFor(m, stats, configs));
    assert Map(rows, RowModel) == models;
    rows
  }

  /**
   * The table lists each model once: every model with statistics, then every config model
   * that has none, each group in its own order.
   */
  lemma {:induction false} ComparisonModels(stats: seq<ModelStats>, configs: seq<ConfigModel>)
    ensures var models := Map(ComparisonRows(stats, configs), RowModel);
      && NoDuplicates(models)
      && (forall m :: m in models <==> m in Map(stats, StatsModel) || m in Map(configs, ConfigName))
      && models == Dedup(Map(stats, StatsModel)) + Filter(Dedup(Map(configs, ConfigName)), NotIn(Map(stats, StatsModel)))
  {
    DedupDistinct(Map(stats, StatsModel) + Map(configs, ConfigName));
    DedupConcat(Map(stats, StatsModel), Map(configs, ConfigName));
  }

  /** The search text: trimmed and lower-cased. */
  function Normalised(q: string): string {
    Lower(Trim(q))
  }

  predicate MatchesQuery(r: Row, norm: string) {
    norm == "" || Contains(Lower(r.model), norm)
  }

  /** The price filter: only a row with a numeric input price above the limit is excluded. */
  predicate WithinCost(r: Row, maxInputCost: Option<real>) {
    !(maxInputCost.Some? && r.inputCost.Some? && r.inputCost.value > maxInputCost.value)
  }

  predicate MatchesContext(r: Row, minContext: string) {
    minContext == "" || Contains(Lower(r.context), Lower(minContext))
  }

  function Keeps(norm: string, maxInputCost: Option<real>, minContext: string): Row -> bool {
    r => MatchesQuery(r, norm) && WithinCost(r, maxInputCost) && MatchesContext(r, minContext)
  }

  /** `filtered`: the rows passing the search, the price limit (`None` for an empty field) and the context filter. */
  function Filtered(rows: seq<Row>, q: string, maxInputCost: Option<real>, minContext: string): (shown: seq<Row>)
    ensures IsSubsequence(shown, rows)
    ensures forall r :: r in shown <==> r in rows && Keeps(Normalised(q), maxInputCost, minContext)(r)
  {
    FilterIsSubsequence(rows, Keeps(Normalised(q), maxInputCost, minContext));
    FilterMembers(rows, Keeps(Normalised(q), maxInputCost, minContext));
    Filter(rows, Keeps(Normalised(q), maxInputCost, minContext))
  }

  /** With a blank search, no price limit and no context filter, every row is shown. */
  lemma {:induction false} NoFiltersShowAll(rows: seq<Row>, q: string)
    requires Trim(q) == ""
    ensures Filtered(rows, q, None, "") == rows
  {
    assert Normalised(q) == "";
    FilterKeepsAll(rows, Keeps(Normalised(q), None, ""));
  }

  /** A row without a numeric input price is never excluded by the price limit, whatever it is. */
  lemma {:induction false} PricelessRowsPass(rows: seq<Row>, r: Row, q: string, limit: real)
    requires r in rows && r.inputCost.None?
    ensures r in Filtered(rows, q, Some(limit), "") <==> r in Filtered(rows, q, None, "")
  {
  }
}
