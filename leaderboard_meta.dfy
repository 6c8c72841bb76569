/** lib/leaderboardMeta.ts: a small table of model context sizes and prices, with a default row for any other model. */
module LeaderboardMeta {
  import opened Wrappers
  import opened Seqs

  /** A model's context size label and its dollar prices per million input and output tokens. */
  datatype MetaRow = MetaRow(model: string, context: string, inputCost: real, outputCost: real)

  /** `MODEL_META`. */
  const ModelMeta: seq<MetaRow> := [
    MetaRow("openai/gpt-4o-mini", "128k", 0.15, 0.60),
    MetaRow("openai/gpt-4.1-mini", "128k", 0.30, 1.20),
    MetaRow("anthropic/claude-3.5-sonnet", "200k", 3.00, 15.00),
    MetaRow("google/gemini-1.5-flash", "1M", 0.08, 0.30)
  ]

  /** The context label of an unknown model: an em dash. */
  const NoContext: string := "\U{2014}"

  /** `m => m.model === model`. */
  function Names(model: string): MetaRow -> bool {
    (row: MetaRow) => row.model == model
  }

  /** `getMeta`: the first row naming the model, or a row with no context and zero prices. */
  function GetMeta(model: string): (row: MetaRow)
    ensures row.model == model
    ensures row in ModelMeta || row == MetaRow(model, NoContext, 0.0, 0.0)
    ensures (forall k :: 0 <= k < |ModelMeta| ==> ModelMeta[k].model != model) ==> row == MetaRow(model, NoContext, 0.0, 0.0)
  {
    // `MODEL_META.find(m => m.model === model)`
    match Find(ModelMeta, Names(model))
    case Some(i) => ModelMeta[i]
    case None => MetaRow(model, NoContext, 0.0, 0.0)
  }

  /** A listed model gets its own row: the earliest row naming it. */
  lemma {:induction false} ListedModelGetsItsRow(i: nat)
    requires i < |ModelMeta|
    requires forall k :: 0 <= k < i ==> ModelMeta[k].model != ModelMeta[i].model
    ensures GetMeta(ModelMeta[i].model) == ModelMeta[i]
  {
    var r := Find(ModelMeta, Names(ModelMeta[i].model));
    assert r.Some?;
    assert r.value == i;
  }

  /** The four listed models return their listed context and prices. */
  lemma {:induction false} ListedMeta()
    ensures GetMeta("openai/gpt-4o-mini") == MetaRow("openai/gpt-4o-mini", "128k", 0.15, 0.60)
    ensures GetMeta("openai/gpt-4.1-mini") == MetaRow("openai/gpt-4.1-mini", "128k", 0.30, 1.20)
    ensures GetMeta("anthropic/claude-3.5-sonnet") == MetaRow("anthropic/claude-3.5-sonnet", "200k", 3.00, 15.00)
    ensures GetMeta("google/gemini-1.5-flash") == MetaRow("google/gemini-1.5-flash", "1M", 0.08, 0.30)
  {
    ListedModelGetsItsRow(0);
    ListedModelGetsItsRow(1);
    ListedModelGetsItsRow(2);
    ListedModelGetsItsRow(3);
  }
}
