/** lib/modelColors.ts: a fixed colour for each listed model name, and a translucent white for every other name. */
module ModelColors {

  /** `MODEL_COLORS`: only the two entries that are not commented out are keys. */
  const Table: map<string, string> := map[
    "openai/gpt-4o-mini" := "#3b82f6",
    "openai/gpt-4.1-mini" := "#facc15"
  ]

  /** The colour of a name that is not in the table. */
  const DefaultColor: string := "rgba(255,255,255,0.35)"

  /** `colorForModel`: the table's colour, or the default for a name the table lacks. */
  function ColorForModel(model: string): (color: string)
    ensures model in Table ==> color == Table[model]
    ensures model !in Table ==> color == DefaultColor
  {
    if model in Table then Table[model] else DefaultColor
  }

  /** The two listed models get their listed colours. */
  lemma ListedColors()
    ensures ColorForModel("openai/gpt-4o-mini") == "#3b82f6"
    ensures ColorForModel("openai/gpt-4.1-mini") == "#facc15"
  {
  }

  /** Exactly the two listed names get a colour other than the default. */
  lemma {:induction false} OnlyListedAreColoured(model: string)
    ensures ColorForModel(model) != DefaultColor <==> model == "openai/gpt-4o-mini" || model == "openai/gpt-4.1-mini"
  {
    assert Table.Keys == {"openai/gpt-4o-mini", "openai/gpt-4.1-mini"};
    assert "#3b82f6" != DefaultColor && "#facc15" != DefaultColor;
  }

  /** The entries left in comments are not keys: those models get the default colour. */
  lemma {:induction false} CommentedOutGetDefault()
    ensures ColorForModel("anthropic/claude-3-5-sonnet") == DefaultColor
    ensures ColorForModel("google/gemini-1.5-flash") == DefaultColor
  {
    OnlyListedAreColoured("anthropic/claude-3-5-sonnet");
    OnlyListedAreColoured("google/gemini-1.5-flash");
  }
}
