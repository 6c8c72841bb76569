/**
 * app/page.tsx: the benchmark page. It keeps its own run history in `localStorage` (no
 * cap), offers the models of the config file as candidates and as judges, validates the
 * form, calls the benchmark API, saves the run and shows the results best first, each
 * output cut to a 160-character preview unless expanded.
 * Rendering is not modelled; the page's state is a class whose methods are the handlers.
 */
module HomePage {
  import opened Wrappers
  import opened Text
  import opened Seqs
  import opened StableSort
  import opened Models
  import opened Browser

  const DefaultPrompt: string := "Write a vivid character description for a detective " + "who secretly fears the ocean."

  /** How many models are selected by default. */
  const DefaultSelectionSize: nat := 3

  /** How many characters of an output the collapsed preview shows. */
  const PreviewLength: nat := 160

  const Ellipsis: string := "\U{2026}"

  const PromptEmpty: string := "Prompt is empty."
  const JudgeEmpty: string := "Judge model is empty."
  const NoModelSelected: string := "Please select at least 1 model."
  const ApiFailed: string := "Benchmark API failed."
  const NoResults: string := "No results returned from /api/benchmark."
  const SomethingWrong: string := "Something went wrong."

  /** `readRuns`: the stored list, or `[]` for an absent, unparsable or non-array entry, or without storage. */
  method ReadRuns(store: LocalStorage) returns (runs: seq<BenchRun>)
    ensures runs == store.Loaded()
  {
    if !store.hasWindow {
      return [];
    }
    match store.slot
    case Saved(saved) => runs := saved;
    case _ => runs := [];
  }

  /**
   * `saveRun`: puts the run in front of the stored list, with no cap, and returns the new
   * length. Without storage `setItem` throws and nothing is stored.
   */
  method SaveRun(store: LocalStorage, run: BenchRun) returns (count: Result<nat>)
    modifies store
    ensures !store.hasWindow ==> count == Err(NoStorageError) && store.slot == old(store.slot)
    ensures store.hasWindow ==> store.Loaded() == [run] + old(store.Loaded())
    ensures store.hasWindow ==> count == Ok(|old(store.Loaded())| + 1)
  {
    var runs := ReadRuns(store);
    runs := [run] + runs;
    if !store.hasWindow {
      return Err(NoStorageError);
    }
    store.slot := Saved(runs);
    count := Ok(|runs|);
  }

  /** Does not hold `model`. */
  function Other(model: string): string -> bool {
    m => m != model
  }

  /** The `toggleModel` updater: a selected model is removed (every occurrence), any other is appended. */
  function ToggleModel(prev: seq<string>, model: string): (next: seq<string>)
    ensures model in prev ==> model !in next && IsSubsequence(next, prev)
    ensures model in prev ==> forall m :: m in prev && m != model ==> m in next
    ensures model !in prev ==> next == prev + [model]
  {
    if model in prev then
      FilterMembers(prev, Other(model));
      FilterIsSubsequence(prev, Other(model));
      Filter(prev, Other(model))
    else prev + [model]
  }

  /** Toggling a model that is not selected twice gives back the selection. */
  lemma {:induction false} ToggleTwice(prev: seq<string>, model: string)
    requires model !in prev
    ensures ToggleModel(ToggleModel(prev, model), model) == prev
  {
    FilterSnoc(prev, model, Other(model));
    FilterKeepsAll(prev, Other(model));
  }

  /** Toggling a selected model and then toggling it back moves it to the end. */
  lemma {:induction false} ToggleBack(prev: seq<string>, model: string)
    requires model in prev
    ensures ToggleModel(ToggleModel(prev, model), model) == Filter(prev, Other(model)) + [model]
  {
  }

  /**
   * The form check of `runBenchmark`, in the source's order: a prompt that is blank after
   * trimming, then a blank judge, then an empty selection.
   */
  function Validate(prompt: string, judge: string, selected: seq<string>): (err: Option<string>)
    ensures err.None? <==> Trim(prompt) != "" && Trim(judge) != "" && selected != []
    ensures Trim(prompt) == "" ==> err == Some(PromptEmpty)
    ensures Trim(prompt) != "" && Trim(judge) == "" ==> err == Some(JudgeEmpty)
    ensures Trim(prompt) != "" && Trim(judge) != "" && selected == [] ==> err == Some(NoModelSelected)
  {
    if Trim(prompt) == "" then Some(PromptEmpty)
    else if Trim(judge) == "" then Some(JudgeEmpty)
    else if selected == [] then Some(NoModelSelected)
    else None
  }

  /** What `POST /api/benchmark` gave back. */
  datatype ApiReply =
      /** A non-2xx status and the response text. */
    | NotOk(text: string)
      /** A 2xx status; `results` when the body's `results` is an array. */
    | Replied(results: Option<seq<BenchResult>>)
      /** `fetch` or `res.json()` threw, with this message. */
    | Threw(message: string)

  /** The benchmark API, given the prompt, the judge and the selected models. */
  type BenchmarkApi = (string, string, seq<string>) -> ApiReply

  /** The results to save, or the error that `runBenchmark` throws (before saving). */
  function Outcome(prompt: string, judge: string, selected: seq<string>, api: BenchmarkApi): (r: Result<seq<BenchResult>>)
    ensures Validate(prompt, judge, selected).Some? ==> r == Err(Validate(prompt, judge, selected).value)
    ensures r.Ok? ==> r.value != [] && api(prompt, judge, selected) == Replied(Some(r.value))
    ensures Validate(prompt, judge, selected).None? && api(prompt, judge, selected) == Replied(Some([])) ==> r == Err(NoResults)
  {
    match Validate(prompt, judge, selected)
    case Some(e) => Err(e)
    case None =>
      match api(prompt, judge, selected)
      case NotOk(text) => Err(if text != "" then text else ApiFailed)
      case Threw(message) => Err(message)
      case Replied(results) =>
        var rs := results.GetOr([]);
        if rs == [] then Err(NoResults) else Ok(rs)
  }

  /** The error line shown for a thrown message: `e?.message || "Something went wrong."`. */
  function Shown(message: string): (text: string)
    ensures text != ""
    ensures message != "" ==> text == message
  {
    if message != "" then message else SomethingWrong
  }

  /** `expanded[model]`: an entry that was never toggled is collapsed. */
  predicate IsExpanded(expanded: map<string, bool>, model: string) {
    model in expanded && expanded[model]
  }

  /** Whether a "Show full" / "Show less" button is shown under an output. */
  predicate ShowsToggle(output: string) {
    |output| > PreviewLength
  }

  /** The text shown for an output: all of it when expanded or short, else its first 160 characters and an ellipsis. */
  function Preview(output: string, expanded: bool): (p: string)
    ensures expanded || !ShowsToggle(output) ==> p == output
    ensures !expanded && ShowsToggle(output) ==> |p| == PreviewLength + 1 && p[..PreviewLength] == output[..PreviewLength]
    ensures !expanded && ShowsToggle(output) ==> p[PreviewLength] == '\U{2026}'
  {
    if expanded then output
    else output[..if |output| < PreviewLength then |output| else PreviewLength] + (if |output| > PreviewLength then Ellipsis else "")
  }

  /** A collapsed preview never exceeds 161 characters and begins like the output. */
  lemma {:induction false} PreviewIsBounded(output: string)
    ensures |Preview(output, false)| <= PreviewLength + 1
    ensures var n := if |output| < PreviewLength then |output| else PreviewLength;
      Preview(output, false)[..n] == output[..n]
  {
  }

  /** The results as listed: best total first, ties in the order the API returned them. */
  function DisplayOrder(results: seq<BenchResult>): (shown: seq<BenchResult>)
    ensures |shown| == |results| && multiset(shown) == multiset(results)
  {
    SortDesc(results, TotalOf)
  }

  /** The listing is non-increasing in total and keeps the API's order among equal totals. */
  lemma {:induction false} DisplayOrderRanks(results: seq<BenchResult>, total: real)
    ensures NonIncreasing(DisplayOrder(results), TotalOf)
    ensures Filter(DisplayOrder(results), HasKey(TotalOf, total)) == Filter(results, HasKey(TotalOf, total))
  {
    SortDescSorted(results, TotalOf);
    SortDescStable(results, TotalOf, total);
  }

  /** The default selection is a prefix of the options and holds the default judge, the first option. */
  lemma {:induction false} DefaultsAgree(options: seq<string>)
    requires options != []
    ensures var selection := Prefix(options, DefaultSelectionSize);
      && |selection| == (if |options| < 3 then |options| else 3)
      && selection == options[..|selection|]
      && options[0] in selection
  {
    assert Prefix(options, DefaultSelectionSize)[0] == options[0];
  }

  /** The page's state. `configModels` holds the names of the config file's models, the page's options. */
  class Page {
    var prompt: string
    var judgeModel: string
    var selectedModels: seq<string>
    var configModels: seq<string>
    var runsCount: nat
    var lastResults: Option<seq<BenchResult>>
    var loading: bool
    var err: string
    var expanded: map<string, bool>

    /** The first render: the sample prompt, no judge, no selection, nothing loaded. */
    constructor()
      ensures prompt == DefaultPrompt && judgeModel == "" && selectedModels == [] && configModels == []
      ensures runsCount == 0 && lastResults.None? && !loading && err == "" && expanded == map[]
    {
      prompt := DefaultPrompt;
      judgeModel := "";
      selectedModels := [];
      configModels := [];
      runsCount := 0;
      lastResults := None;
      loading := false;
      err := "";
      expanded := map[];
    }

    /** The first effect: the number of saved runs, and the newest run's results if there is one. */
    method LoadSaved(store: LocalStorage)
      modifies this
      ensures runsCount == |store.Loaded()|
      ensures store.Loaded() != [] ==> lastResults == Some(store.Loaded()[0].results)
      ensures store.Loaded() == [] ==> lastResults == old(lastResults)
      ensures prompt == old(prompt) && judgeModel == old(judgeModel) && selectedModels == old(selectedModels)
      ensures configModels == old(configModels) && loading == old(loading) && err == old(err) && expanded == old(expanded)
    {
      var runs := ReadRuns(store);
      runsCount := |runs|;
      if |runs| > 0 {
        lastResults := Some(runs[0].results);
      }
    }

    /**
     * The second effect, once the config models arrive (`[]` when the fetch fails or the
     * body has no array). Its closure sees the first render's empty judge and selection, so
     * with at least one model it always sets the judge to the first model and selects the
     * first three.
     */
    method LoadConfig(models: seq<string>)
      modifies this
      ensures configModels == models
      ensures models != [] ==> judgeModel == models[0] && selectedModels == Prefix(models, DefaultSelectionSize)
      ensures models == [] ==> judgeModel == old(judgeModel) && selectedModels == old(selectedModels)
      ensures prompt == old(prompt) && runsCount == old(runsCount) && lastResults == old(lastResults)
      ensures loading == old(loading) && err == old(err) && expanded == old(expanded)
    {
      configModels := models;
      if |models| > 0 {
        judgeModel := models[0];
        selectedModels := Prefix(models, DefaultSelectionSize);
      }
    }

    /** A click on a model's badge. */
    method Toggle(model: string)
      modifies this
      ensures selectedModels == ToggleModel(old(selectedModels), model)
      ensures prompt == old(prompt) && judgeModel == old(judgeModel) && configModels == old(configModels)
      ensures runsCount == old(runsCount) && lastResults == old(lastResults)
      ensures loading == old(loading) && err == old(err) && expanded == old(expanded)
    {
      selectedModels := ToggleModel(selectedModels, model);
    }

    /** A click on "Show full" / "Show less" under a model's output. */
    method ToggleExpanded(model: string)
      modifies this
      ensures expanded == old(expanded)[model := !IsExpanded(old(expanded), model)]
      ensures IsExpanded(expanded, model) != IsExpanded(old(expanded), model)
      ensures prompt == old(prompt) && judgeModel == old(judgeModel) && selectedModels == old(selectedModels)
      ensures configModels == old(configModels) && runsCount == old(runsCount) && lastResults == old(lastResults)
      ensures loading == old(loading) && err == old(err)
    {
      expanded := expanded[model := !IsExpanded(expanded, model)];
    }

    /**
     * `runBenchmark`: validates the form, calls the API only when the form is valid, and
     * on results saves the run (stamped `now`) and shows it. `called` says whether the API
     * was called. Any error is shown and nothing is saved.
     */
    method RunBenchmark(store: LocalStorage, api: BenchmarkApi, now: int) returns (called: bool)
      modifies this, store
      ensures called <==> Validate(old(prompt), old(judgeModel), old(selectedModels)).None?
      ensures Shows(store, Outcome(old(prompt), old(judgeModel), old(selectedModels), api),
                    BenchRun(now, old(prompt), old(selectedModels), old(judgeModel), []),
                    old(runsCount), old(store.slot))
      ensures !loading && expanded == map[]
      ensures prompt == old(prompt) && judgeModel == old(judgeModel) && selectedModels == old(selectedModels)
      ensures configModels == old(configModels)
    {
      err := "";
      loading := true;
      lastResults := None;
      expanded := map[];
      called := Validate(prompt, judgeModel, selectedModels).None?;
      var outcome := Outcome(prompt, judgeModel, selectedModels, api);
      Finish(store, outcome, BenchRun(now, prompt, selectedModels, judgeModel, []));
      loading := false;
    }

    /**
     * What the page shows after a run, and what is stored: the error, or the results
     * with the run saved in front of the earlier ones. `form` is the run without its results.
     */
    ghost predicate Shows(store: LocalStorage, outcome: Result<seq<BenchResult>>, form: BenchRun, count0: nat, slot0: Slot)
      reads this, store
    {
      && (outcome.Err? ==>
            err == Shown(outcome.message) && lastResults.None? && runsCount == count0 && store.slot == slot0)
      && (outcome.Ok? && !store.hasWindow ==>
            err == NoStorageError && lastResults.None? && runsCount == count0 && store.slot == slot0)
      && (outcome.Ok? && store.hasWindow ==>
            var previous := if slot0.Saved? then slot0.runs else [];
            && err == "" && lastResults == Some(outcome.value)
            && store.Loaded() == [form.(results := outcome.value)] + previous
            && runsCount == |previous| + 1)
    }

    /** The end of `runBenchmark`: show the error, or save the run and show its results. */
    method Finish(store: LocalStorage, outcome: Result<seq<BenchResult>>, form: BenchRun)
      requires err == "" && lastResults.None?
      modifies this, store
      ensures Shows(store, outcome, form, old(runsCount), old(store.slot))
      ensures prompt == old(prompt) && judgeModel == old(judgeModel) && selectedModels == old(selectedModels)
      ensures configModels == old(configModels) && loading == old(loading) && expanded == old(expanded)
    {
      match outcome {
        case Err(message) =>
          err := Shown(message);
        case Ok(results) =>
          var count := SaveRun(store, form.(results := results));
          match count {
            case Err(message) =>
              err := Shown(message);
            case Ok(n) =>
              runsCount := n;
              lastResults := Some(results);
          }
      }
    }

    /** "Clear Saved Runs": removes the entry and empties the display (without storage the removal throws and nothing changes). */
    method ClearRuns(store: LocalStorage)
      modifies this, store
      ensures !store.hasWindow ==> store.slot == old(store.slot) && runsCount == old(runsCount) && lastResults == old(lastResults) && expanded == old(expanded)
      ensures store.hasWindow ==> store.Loaded() == [] && runsCount == 0 && lastResults.None? && expanded == map[]
      ensures prompt == old(prompt) && judgeModel == old(judgeModel) && selectedModels == old(selectedModels)
      ensures configModels == old(configModels) && loading == old(loading) && err == old(err)
    {
      if !store.hasWindow {
        return;
      }
      store.slot := Absent;
      runsCount := 0;
      lastResults := None;
      expanded := map[];
    }
  }
}
