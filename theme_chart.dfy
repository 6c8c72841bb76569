/**
 * components/ThemeCoherenceLineChart.tsx: the line chart of "theme coherence" (a run's total
 * over 4, so 0 to 10) of each model over the newest eight runs, oldest first. The chart
 * library and the styling of the lines are not modelled; each line keeps its label, its
 * points and its colour.
 */
module ThemeChart {
  import opened Wrappers
  import opened Js
  import opened Text
  import opened Seqs
  import opened Models
  import LeaderboardStore

  /** How many runs the chart shows. */
  const WindowSize: nat := 8

  /**
   * `themeFromTotal`: a string total is converted with `Number` (given as `numberOf`); a value
   * that is not a finite number gives 0, any other total gives a quarter of it.
   */
  function ThemeFromTotal(total: Field, numberOf: StringToNumber): (v: real)
    ensures total.Missing? ==> v == 0.0
    ensures total.Number? ==> (if total.num.Finite? then v * 4.0 == total.num.value else v == 0.0)
    ensures total.Text? ==> (if numberOf(total.text).Finite? then v * 4.0 == numberOf(total.text).value else v == 0.0)
  {
    var n := match total
      case Text(s) => Some(numberOf(s))
      case Number(x) => Some(x)
      case Missing => None;
    if n.Some? && n.value.Finite? then n.value.value / 4.0 else 0.0
  }

  /** Totals from 0 to 40 give points from 0 to 10. */
  lemma {:induction false} ThemeRange(total: real, numberOf: StringToNumber)
    requires 0.0 <= total <= 40.0
    ensures 0.0 <= ThemeFromTotal(Number(Finite(total)), numberOf) <= 10.0
  {
  }

  /** A result as the chart reads it: its model and `scores?.total`, which may be absent, a number or a string. */
  datatype ChartResult = ChartResult(model: string, total: Field)

  /** A run as the chart reads it; `judgeModel` is optional. */
  datatype ChartRun = ChartRun(ts: int, judgeModel: Option<string>, results: seq<ChartResult>)

  function ChartResultOf(r: BenchResult): ChartResult {
    ChartResult(r.model, Number(Finite(r.scores.total)))
  }

  /** A saved run as handed to the chart. */
  function ChartRunOf(run: BenchRun): (c: ChartRun)
    ensures c.judgeModel == Some(run.judgeModel)
    ensures |c.results| == |run.results|
    ensures forall k :: 0 <= k < |run.results| ==> c.results[k] == ChartResult(run.results[k].model, Number(Finite(run.results[k].scores.total)))
  {
    ChartRun(run.ts, Some(run.judgeModel), Map(run.results, ChartResultOf))
  }

  /** `r.judgeModel`, with an absent judge read as "" (both are dropped by `filter(Boolean)`). */
  function JudgeOf(run: ChartRun): string {
    run.judgeModel.GetOr("")
  }

  predicate NonEmpty(s: string) {
    s != ""
  }

  /** `judges`: the distinct non-empty judge models of all runs, in order of first appearance. */
  function Judges(runs: seq<ChartRun>): (judges: seq<string>)
    ensures |judges| <= |runs|
  {
    Dedup(Filter(Map(runs, JudgeOf), NonEmpty))
  }

  /** The judges listed are exactly the non-empty judge models some run names. */
  lemma {:induction false} JudgesListed(runs: seq<ChartRun>)
    ensures "" !in Judges(runs)
    ensures forall j :: j in Judges(runs) <==> j != "" && exists k :: 0 <= k < |runs| && runs[k].judgeModel == Some(j)
  {
    var named := Map(runs, JudgeOf);
    FilterMembers(named, NonEmpty);
    forall j | j != "" && j in named
      ensures exists k :: 0 <= k < |runs| && runs[k].judgeModel == Some(j)
    {
      var k :| 0 <= k < |named| && named[k] == j;
      assert runs[k].judgeModel == Some(j);
    }
    forall j, k | j != "" && 0 <= k < |runs| && runs[k].judgeModel == Some(j)
      ensures j in named
    {
      assert named[k] == j;
    }
  }

  /** Each judge is listed once, and in order of first appearance. */
  lemma {:induction false} JudgesDistinct(runs: seq<ChartRun>, i: nat, j: nat)
    requires i < j < |Judges(runs)|
    ensures Judges(runs)[i] != Judges(runs)[j]
    ensures var named := Filter(Map(runs, JudgeOf), NonEmpty);
      FirstIndex(named, Judges(runs)[i]) < FirstIndex(named, Judges(runs)[j])
  {
    var named := Filter(Map(runs, JudgeOf), NonEmpty);
    DedupDistinct(named);
    DedupOrder(named, i, j);
  }

  /** `lastN`: the newest eight runs (the list is newest first), turned oldest first. */
  function LastN(runs: seq<ChartRun>): (window: seq<ChartRun>)
    ensures |window| == if |runs| < WindowSize then |runs| else WindowSize
    ensures forall k :: 0 <= k < |window| ==> window[k] == runs[|window| - 1 - k]
  {
    Reverse(Prefix(runs, WindowSize))
  }

  /** `labels`: "Run 1" to "Run n". */
  function Labels(n: nat): (labels: seq<string>)
    ensures |labels| == n
    ensures forall k :: 0 <= k < n ==> labels[k] == "Run " + NatToString(k + 1)
  {
    if n == 0 then [] else Labels(n - 1) + ["Run " + NatToString(n)]
  }

  function ResultModel(r: ChartResult): string {
    r.model
  }

  /** The models of every result of the runs, run by run, with repetitions. */
  function ResultModels(runs: seq<ChartRun>): seq<string> {
    if runs == [] then [] else ResultModels(runs[..|runs| - 1]) + Map(runs[|runs| - 1].results, ResultModel)
  }

  /** `modelSet`: filled by the nested `forEach`, then listed in insertion order. */
  method ModelSet(window: seq<ChartRun>) returns (models: seq<string>)
    ensures models == Dedup(ResultModels(window))
  {
    models := [];
    var i := 0;
    while i < |window|
      invariant 0 <= i <= |window|
      invariant models == Dedup(ResultModels(window[..i]))
    {
      assert window[..i + 1][..i] == window[..i];
      models := AddAll(ResultModels(window[..i]), models, Map(window[i].results, ResultModel));
      i := i + 1;
    }
    assert window[..i] == window;
  }

  /** `x => x.model === model`. */
  function Names(model: string): ChartResult -> bool {
    (x: ChartResult) => x.model == model
  }

  /** A model's point for one run: the theme of the total of its first result there, or 0 when it has none. */
  function Point(run: ChartRun, model: string, numberOf: StringToNumber): (v: real)
    ensures Find(run.results, Names(model)).None? ==> v == 0.0
    ensures Find(run.results, Names(model)).Some? ==> v == ThemeFromTotal(run.results[Find(run.results, Names(model)).value].total, numberOf)
  {
    match Find(run.results, Names(model))
    case None => ThemeFromTotal(Missing, numberOf)
    case Some(i) => ThemeFromTotal(run.results[i].total, numberOf)
  }

  /** For a saved run, a model's point is a quarter of the total of its first result, and 0 when it has none. */
  lemma {:induction false} SavedRunPoint(run: BenchRun, model: string, numberOf: StringToNumber)
    ensures var c := ChartRunOf(run);
      && (Find(c.results, Names(model)).None? ==> forall k :: 0 <= k < |run.results| ==> run.results[k].model != model)
      && (Find(c.results, Names(model)).Some? ==>
            Point(c, model, numberOf) * 4.0 == run.results[Find(c.results, Names(model)).value].scores.total)
  {
  }

  /** One line of the chart. */
  datatype Dataset = Dataset(name: string, data: seq<real>, color: string)

  /** The line of one model over the window. */
  function DatasetOf(window: seq<ChartRun>, model: string, numberOf: StringToNumber): (d: Dataset)
    ensures d.name == model && d.color == LeaderboardStore.Color(model)
    ensures |d.data| == |window|
    ensures forall k :: 0 <= k < |window| ==> d.data[k] == Point(window[k], model, numberOf)
  {
    Dataset(model, Map(window, (run: ChartRun) => Point(run, model, numberOf)), LeaderboardStore.Color(model))
  }

  /** The chart's data: the labels and one line per model. */
  datatype ChartData = ChartData(labels: seq<string>, datasets: seq<Dataset>)

  /** The component's body, from the saved runs (newest first) to the chart's data. */
  method Chart(runs: seq<ChartRun>, numberOf: StringToNumber) returns (chart: ChartData)
    ensures var window := LastN(runs);
      && chart.labels == Labels(|window|)
      && Map(chart.datasets, DatasetLabel) == Dedup(ResultModels(window))
      && forall k :: 0 <= k < |chart.datasets| ==> chart.datasets[k] == DatasetOf(window, chart.datasets[k].name, numberOf)
  {
    var window := LastN(runs);
    var models := ModelSet(window);
    var datasets := Map(models, (m: string) => DatasetOf(window, m, numberOf));
    assert Map(datasets, DatasetLabel) == models;
    chart := ChartData(Labels(|window|), datasets);
  }

  function DatasetLabel(d: Dataset): string {
    d.name
  }

  /** One line per distinct model of the window, each model appearing in some run of the window. */
  lemma {:induction false} OneLinePerModel(window: seq<ChartRun>)
    ensures NoDuplicates(Dedup(ResultModels(window)))
    ensures forall m :: m in Dedup(ResultModels(window)) <==> exists k :: 0 <= k < |window| && m in Map(window[k].results, ResultModel)
  {
    DedupDistinct(ResultModels(window));
    ResultModelsMembers(window);
  }

  /** A model is collected exactly when some run of the window has a result for it. */
  lemma {:induction false} ResultModelsMembers(runs: seq<ChartRun>)
    ensures forall m :: m in ResultModels(runs) <==> exists k :: 0 <= k < |runs| && m in Map(runs[k].results, ResultModel)
  {
    if runs != [] {
      var init := runs[..|runs| - 1];
      ResultModelsMembers(init);
      forall m | m in ResultModels(runs)
        ensures exists k :: 0 <= k < |runs| && m in Map(runs[k].results, ResultModel)
      {
        CollectedFromSomeRun(runs, m);
      }
      forall m, k | 0 <= k < |runs| && m in Map(runs[k].results, ResultModel)
        ensures m in ResultModels(runs)
      {
        RunModelsCollected(runs, k, m);
      }
    }
  }

  lemma {:induction false} RunModelsCollected(runs: seq<ChartRun>, k: nat, m: string)
    requires k < |runs| && m in Map(runs[k].results, ResultModel)
    ensures m in ResultModels(runs)
  {
    var init := runs[..|runs| - 1];
    if k < |init| {
      assert init[k] == runs[k];
      RunModelsCollected(init, k, m);
    }
  }

  lemma {:induction false} CollectedFromSomeRun(runs: seq<ChartRun>, m: string)
    requires runs != [] && m in ResultModels(runs)
    requires var init := runs[..|runs| - 1];
      forall m :: m in ResultModels(init) <==> exists k :: 0 <= k < |init| && m in Map(init[k].results, ResultModel)
    ensures exists k :: 0 <= k < |runs| && m in Map(runs[k].results, ResultModel)
  {
    var init := runs[..|runs| - 1];
    if m in ResultModels(init) {
      var k :| 0 <= k < |init| && m in Map(init[k].results, ResultModel);
      assert runs[k] == init[k];
    } else {
      assert m in Map(runs[|runs| - 1].results, ResultModel);
    }
  }
}
