/** lib/judge.ts: how the judge's raw answer becomes a canonical score record, and the judge's instructions. */
module Judge {
  import opened Js
  import opened Text
  import opened Models

  /** The judge's parsed JSON as `normalizeScores` reads it; a `total` the judge sends is carried but never read. */
  datatype RawScores = RawScores(
    characterClarity: Field,
    originality: Field,
    sensoryDetail: Field,
    toneConsistency: Field,
    total: Field)

  /** The object `{}`. */
  const NoScores: RawScores := RawScores(Missing, Missing, Missing, Missing, Missing)

  /** An integer between 0 and 10. */
  predicate IsSubScore(x: real) {
    x == x.Floor as real && 0.0 <= x <= 10.0
  }

  /** The invariant of every record `normalizeScores` returns. */
  predicate Canonical(s: Scores) {
    && IsSubScore(s.characterClarity)
    && IsSubScore(s.originality)
    && IsSubScore(s.sensoryDetail)
    && IsSubScore(s.toneConsistency)
    && s.total == s.characterClarity + s.originality + s.sensoryDetail + s.toneConsistency
  }

  /** `clamp0to10`: 0 for anything but a finite number, else `Math.round` pinned into 0..10. */
  function Clamp0To10(n: Field): (r: int)
    ensures 0 <= r <= 10
    ensures !IsFiniteNumber(n) ==> r == 0
    ensures IsFiniteNumber(n) ==>
      var x := n.num.value;
      && (x < 0.5 ==> r == 0)
      && (x >= 9.5 ==> r == 10)
      && (0.5 <= x < 9.5 ==> (r as real) - 0.5 <= x < (r as real) + 0.5)
  {
    if !IsFiniteNumber(n) then 0
    else
      var k := Round(n.num.value);
      if k < 0 then 0 else if k > 10 then 10 else k
  }

  /** One sub-score: `clamp0to10(raw.field ?? 0)`. */
  function SubScore(f: Field): (r: real)
    ensures IsSubScore(r)
    ensures !IsFiniteNumber(f) ==> r == 0.0
  {
    Clamp0To10(OrZero(f)) as real
  }

  /** `normalizeScores`: four clamped sub-scores and their sum. */
  function NormalizeScores(raw: RawScores): (s: Scores)
    ensures Canonical(s)
    ensures 0.0 <= s.total <= 40.0
    ensures s.characterClarity == SubScore(raw.characterClarity)
    ensures s.originality == SubScore(raw.originality)
    ensures s.sensoryDetail == SubScore(raw.sensoryDetail)
    ensures s.toneConsistency == SubScore(raw.toneConsistency)
  {
    var c := SubScore(raw.characterClarity);
    var o := SubScore(raw.originality);
    var d := SubScore(raw.sensoryDetail);
    var t := SubScore(raw.toneConsistency);
    Scores(c, o, d, t, c + o + d + t)
  }

  /** The all-zero record that `{}` normalises to. */
  lemma EmptyScoresAreZero()
    ensures NormalizeScores(NoScores) == Scores(0.0, 0.0, 0.0, 0.0, 0.0)
  {
  }

  /** A `total` supplied by the judge has no effect. */
  lemma TotalIgnored(raw: RawScores, t: Field)
    ensures NormalizeScores(raw.(total := t)) == NormalizeScores(raw)
  {
  }

  /** A score record fed back to `normalizeScores` as JSON numbers. */
  function AsRaw(s: Scores): RawScores {
    RawScores(
      Number(Finite(s.characterClarity)), Number(Finite(s.originality)),
      Number(Finite(s.sensoryDetail)), Number(Finite(s.toneConsistency)),
      Number(Finite(s.total)))
  }

  lemma {:induction false} SubScoreFixed(x: real)
    requires IsSubScore(x)
    ensures SubScore(Number(Finite(x))) == x
  {
    RoundOfInteger(x.Floor);
  }

  /** Canonical records are exactly the fixed points of normalisation. */
  lemma {:induction false} CanonicalIsFixed(s: Scores)
    requires Canonical(s)
    ensures NormalizeScores(AsRaw(s)) == s
  {
    SubScoreFixed(s.characterClarity);
    SubScoreFixed(s.originality);
    SubScoreFixed(s.sensoryDetail);
    SubScoreFixed(s.toneConsistency);
  }

  /** `normalizeScores` is idempotent. */
  lemma {:induction false} NormalizeIdempotent(raw: RawScores)
    ensures NormalizeScores(AsRaw(NormalizeScores(raw))) == NormalizeScores(raw)
  {
    CanonicalIsFixed(NormalizeScores(raw));
  }

  /** Out-of-range and fractional values: 12 gives 10, -3 gives 0, 7.6 and 7.5 give 8. */
  lemma {:induction false} ClampExamples()
    ensures Clamp0To10(Number(Finite(12.0))) == 10
    ensures Clamp0To10(Number(Finite(-3.0))) == 0
    ensures Clamp0To10(Number(Finite(7.6))) == 8
    ensures Clamp0To10(Number(Finite(7.5))) == 8
  {
    assert Round(7.6) == 8;
    assert Round(7.5) == 8;
  }

  /** The string "8" scores 0: `Number.isFinite` does not convert strings. */
  lemma {:induction false} JudgeTextExample()
    ensures NormalizeScores(RawScores(Number(Finite(12.0)), Number(Finite(-3.0)), Number(Finite(7.6)), Text("8"), Missing))
         == Scores(10.0, 0.0, 8.0, 0.0, 18.0)
  {
    ClampExamples();
  }

  /** The rubric up to the point where the prompt is inserted. */
  const Rubric: string := RubricOpening + RubricBody

  const RubricOpening: string := "You are a strict creative-writing judge.\n\n"

  const RubricBody: string :=
    "Rate the writing from 0 to 10 in each category:\n"
    + "- character_clarity (is the character vivid and understandable?)\n"
    + "- originality (fresh, non-generic ideas)\n"
    + "- sensory_detail (concrete imagery: sights/sounds/smells/tactile)\n"
    + "- tone_consistency (tone stays consistent and intentional)\n\n"
    + "Return ONLY valid JSON with exactly these keys:\n"
    + "{\n"
    + "  \"character_clarity\": number,\n"
    + "  \"originality\": number,\n"
    + "  \"sensory_detail\": number,\n"
    + "  \"tone_consistency\": number\n"
    + "}\n\n"
    + "Prompt:\n"

  /** The text between the prompt and the model output, up to the line break before the output. */
  const OutputHeading: string := "\n\nModel Output:"

  /** The template of `judgePrompt` up to the line break before the model output. */
  function JudgeHead(userPrompt: string): string {
    Rubric + userPrompt + OutputHeading
  }

  /** The template literal of `judgePrompt` before it is trimmed. */
  function JudgeTemplate(userPrompt: string, modelOutput: string): string {
    "\n" + JudgeHead(userPrompt) + "\n" + modelOutput + "\n"
  }

  /**
   * `judgePrompt`: the judge sees the rubric, the user's prompt verbatim, and the model's
   * output without its trailing white space (an all-blank output also loses the line break
   * before it). `JudgePromptIsTrimmedTemplate` shows that this is the trimmed template.
   */
  function JudgePrompt(userPrompt: string, modelOutput: string): string {
    JudgeHead(userPrompt) + (if TrimEnd(modelOutput) == [] then "" else "\n" + TrimEnd(modelOutput))
  }

  /** `judgePrompt` returns its template literal passed through `trim`. */
  lemma JudgePromptIsTrimmedTemplate(userPrompt: string, modelOutput: string)
    ensures JudgePrompt(userPrompt, modelOutput) == Trim(JudgeTemplate(userPrompt, modelOutput))
  {
    HeadEnds(userPrompt);
    TrimmedTemplate(JudgeHead(userPrompt), modelOutput);
  }

  /** The head starts with the rubric's first letter and ends with the colon of its last heading. */
  lemma HeadEnds(userPrompt: string)
    ensures var a := JudgeHead(userPrompt); a != [] && a[0] == 'Y' && a[|a| - 1] == ':'
  {
    var a := JudgeHead(userPrompt);
    assert RubricOpening[0] == 'Y';
    assert Rubric[0] == 'Y';
    assert OutputHeading[|OutputHeading| - 1] == ':';
    assert a == (Rubric + userPrompt) + OutputHeading;
  }

  /** Trimming a block that starts and ends with visible text, followed by a line and a blank line. */
  lemma {:induction false} TrimmedTemplate(a: string, o: string)
    requires a != [] && !IsSpace(a[0]) && !IsSpace(a[|a| - 1])
    ensures Trim("\n" + a + "\n" + o + "\n")
         == a + (if TrimEnd(o) == [] then "" else "\n" + TrimEnd(o))
  {
    var tail := "\n" + o + "\n";
    var body := a + tail;
    assert "\n" + a + "\n" + o + "\n" == "\n" + body;
    assert body[0] == a[0];
    TrimStartConcat("\n", body);
    assert tail == ("\n" + o) + "\n";
    TrimEndConcat("\n" + o, "\n");
    TrimEndConcat("\n", o);
    assert TrimEnd("\n") == [];
    TrimEndConcat(a, tail);
    TrimEndKeeps(a);
  }
}
