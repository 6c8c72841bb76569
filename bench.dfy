/**
 * lib/bench.ts: the library benchmark. Each model writes an answer to the prompt, a judge
 * model scores the answer, and the results are ranked by total score.
 */
module Bench {
  import opened Wrappers
  import opened Text
  import opened Seqs
  import opened StableSort
  import opened Models
  import opened Backend
  import opened Judge
  import opened Loop

  const DefaultJudgeModel: string := "openai/gpt-4o-mini"

  /** Both requests are sent with this temperature. */
  const BenchTemperature: real := 0.9

  const WriterInstruction: string := "You are a helpful creative-writing assistant."
  const JudgeInstruction: string := "Return JSON only. No markdown."

  /** The `TypeError` `normalizeScores` throws when the judge answers with JSON `null`. */
  const NullFieldError: string := "Cannot read properties of null (reading 'character_clarity')"

  /**
   * What `JSON.parse` returns, as far as `normalizeScores` can tell: `null`, or a value whose
   * score fields are read (numbers, strings and arrays have none, so they read as `NoScores`).
   */
  datatype Parsed = Null | Value(fields: RawScores)

  /** `JSON.parse`: a value, or the `SyntaxError` it throws. */
  type JsonParser = string -> Result<Parsed>

  /** `process.env.JUDGE_MODEL || "openai/gpt-4o-mini"`: an unset or empty variable gives the default. */
  function JudgeModelOf(env: Option<string>): (m: string)
    ensures m != ""
    ensures env.Some? && env.value != "" ==> m == env.value
    ensures env.None? || env.value == "" ==> m == DefaultJudgeModel
  {
    if env.Some? && env.value != "" then env.value else DefaultJudgeModel
  }

  /** The body `litellmChat` posts: a system and a user message. */
  function Request(model: string, instruction: string, content: string): ChatRequest {
    ChatRequest(model, [ChatMsg(System, instruction), ChatMsg(User, content)], BenchTemperature)
  }

  function GenerationRequest(model: string, prompt: string): ChatRequest {
    Request(model, WriterInstruction, prompt)
  }

  function JudgeRequest(judgeModel: string, prompt: string, output: string): ChatRequest {
    Request(judgeModel, JudgeInstruction, JudgePrompt(prompt, output))
  }

  /** What `litellmChat` throws for a non-2xx status starts with this, followed by the status. */
  const StatusErrorPrefix: string := "LiteLLM error "

  /** A generated answer and the time its request took. */
  datatype Generation = Generation(output: string, latencyMs: real)

  /**
   * `runOneModel`, given the reply to its request: a missing `content` becomes "", and
   * the latency is the generation request's own elapsed time.
   */
  function RunOneModel(reply: Reply): (r: Result<Generation>)
    ensures r.Ok? <==> reply.Answered?
    ensures r.Ok? ==> r.value.output == reply.content.GetOr("")
    ensures r.Ok? ==> r.value.latencyMs == reply.elapsedMs as real
    ensures reply.Answered? && reply.content.None? ==> r == Ok(Generation("", reply.elapsedMs as real))
  {
    match ChatOutcome(reply, StatusErrorPrefix)
    case Err(e) => Err(e)
    case Ok(a) => Ok(Generation(a.content.GetOr(""), a.elapsedMs as real))
  }

  /**
   * `rawText.match(/\{[\s\S]*\}/)`: the greedy match runs from the first `{` to the last `}`,
   * returned as the indices of those two characters; there is a match exactly when some `{`
   * comes before some `}`.
   */
  function BraceSpan(s: string): (r: Option<(nat, nat)>)
    ensures r.Some? ==>
      && r.value.0 < r.value.1 < |s|
      && s[r.value.0] == '{' && s[r.value.1] == '}'
      && (forall k :: 0 <= k < r.value.0 ==> s[k] != '{')
      && (forall k :: r.value.1 < k < |s| ==> s[k] != '}')
  {
    if '{' in s && '}' in s && IndexOf(s, '{') < LastIndexOf(s, '}') then
      Some((IndexOf(s, '{'), LastIndexOf(s, '}')))
    else
      None
  }

  /** The pattern matches exactly when some `{` comes before some `}`. */
  lemma BraceSpanNone(s: string)
    ensures BraceSpan(s).None? <==> forall i, j :: 0 <= i < j < |s| && s[i] == '{' ==> s[j] != '}'
  {
  }

  /** The judge's answer as `scoreOutput` reads it: `(content ?? "").trim()`. */
  function JudgeText(content: Option<string>): string {
    Trim(content.GetOr(""))
  }

  /**
   * The value `raw` holds after the try/catch: the direct parse; failing that, the parse of the
   * brace span (whose error propagates); failing that, `{}`.
   */
  function ParseJudgeText(rawText: string, parse: JsonParser): (r: Result<Parsed>)
    ensures parse(rawText).Ok? ==> r == parse(rawText)
    ensures parse(rawText).Err? && BraceSpan(rawText).None? ==> r == Ok(Value(NoScores))
    ensures parse(rawText).Err? && BraceSpan(rawText).Some? ==>
      r == parse(rawText[BraceSpan(rawText).value.0..BraceSpan(rawText).value.1 + 1])
  {
    match parse(rawText)
    case Ok(v) => Ok(v)
    case Err(_) =>
      match BraceSpan(rawText)
      case None => Ok(Value(NoScores))
      case Some(span) => parse(rawText[span.0..span.1 + 1])
  }

  /** The outcome of `scoreOutput`, given the judge's reply. */
  function JudgeOutcome(reply: Reply, parse: JsonParser): (r: Result<Scores>)
    ensures r.Ok? ==> Canonical(r.value) && 0.0 <= r.value.total <= 40.0
    ensures !reply.Answered? ==> r.Err? && r.message == ChatOutcome(reply, StatusErrorPrefix).message
    ensures reply.Answered? && parse(JudgeText(reply.content)).Ok? && parse(JudgeText(reply.content)).value.Value? ==>
      r == Ok(NormalizeScores(parse(JudgeText(reply.content)).value.fields))
    ensures reply.Answered? && parse(JudgeText(reply.content)).Err? && BraceSpan(JudgeText(reply.content)).None?
      ==> r == Ok(Scores(0.0, 0.0, 0.0, 0.0, 0.0))
  {
    match ChatOutcome(reply, StatusErrorPrefix)
    case Err(e) => Err(e)
    case Ok(a) =>
      match ParseJudgeText(JudgeText(a.content), parse)
      case Err(e) => Err(e)
      case Ok(Null) => Err(NullFieldError)
      case Ok(Value(fields)) => Ok(NormalizeScores(fields))
  }

  /** `scoreOutput`: one judge request, then the reading of its reply. */
  method ScoreOutput(chat: Chat, n: nat, judgeEnv: Option<string>, prompt: string, output: string, parse: JsonParser)
    returns (r: Result<Scores>)
    ensures r == JudgeOutcome(chat(n, JudgeRequest(JudgeModelOf(judgeEnv), prompt, output)), parse)
  {
    var judgeModel := JudgeModelOf(judgeEnv);
    var reply := chat(n, JudgeRequest(judgeModel, prompt, output));
    r := ReadVerdict(reply, parse);
  }

  /** The rest of `scoreOutput`: the status check, the parse, and the null check of `normalizeScores`. */
  method ReadVerdict(reply: Reply, parse: JsonParser) returns (r: Result<Scores>)
    ensures r == JudgeOutcome(reply, parse)
  {
    var data := ChatOutcome(reply, StatusErrorPrefix);
    if data.Err? {
      return Err(data.message);
    }
    var rawText := Trim(data.value.content.GetOr(""));
    var raw := ReadJson(rawText, parse);
    if raw.Err? {
      return Err(raw.message);
    }
    if raw.value.Null? {
      return Err(NullFieldError);
    }
    r := Ok(NormalizeScores(raw.value.fields));
  }

  /** The try/catch of `scoreOutput`: `raw` starts as `{}` and is replaced by what parses. */
  method ReadJson(rawText: string, parse: JsonParser) returns (r: Result<Parsed>)
    ensures r == ParseJudgeText(rawText, parse)
  {
    var raw: Parsed := Value(NoScores);
    var direct := parse(rawText);
    if direct.Ok? {
      raw := direct.value;
    } else {
      var m := BraceSpan(rawText);
      if m.Some? {
        var second := parse(rawText[m.value.0..m.value.1 + 1]);
        if second.Err? {
          return Err(second.message);
        }
        raw := second.value;
      }
    }
    r := Ok(raw);
  }

  /**
   * The body of the loop for the model at position `i`, whose requests are numbered `2i`
   * (generation) and `2i + 1` (judge).
   */
  function TryModel(model: string, i: nat, prompt: string, judgeModel: string, chat: Chat, parse: JsonParser): (a: Attempt<BenchResult>)
    ensures 1 <= |a.calls| <= 2 && a.calls[0] == GenerationRequest(model, prompt)
    ensures !chat(2 * i, a.calls[0]).Answered? ==> a.result.Err? && |a.calls| == 1
    ensures a.result.Ok? ==>
      && |a.calls| == 2
      && Canonical(a.result.value.scores)
      && chat(2 * i, a.calls[0]).Answered?
      && a.result.value.model == model
      && a.result.value.output == chat(2 * i, a.calls[0]).content.GetOr("")
      && a.result.value.latencyMs == chat(2 * i, a.calls[0]).elapsedMs as real
      && a.calls[1] == JudgeRequest(judgeModel, prompt, a.result.value.output)
      && JudgeOutcome(chat(2 * i + 1, a.calls[1]), parse) == Ok(a.result.value.scores)
  {
    var g := GenerationRequest(model, prompt);
    match RunOneModel(chat(2 * i, g))
    case Err(e) => Attempt([g], Err(e))
    case Ok(gen) =>
      var j := JudgeRequest(judgeModel, prompt, gen.output);
      match JudgeOutcome(chat(2 * i + 1, j), parse)
      case Err(e) => Attempt([g, j], Err(e))
      case Ok(scores) => Attempt([g, j], Ok(BenchResult(model, gen.output, gen.latencyMs, scores)))
  }

  /**
   * One iteration of the loop in `runBenchmark`: `runOneModel`, then `scoreOutput` on its
   * answer; an error in either ends the iteration. Its outcome is `TryModel`'s, which
   * `attempt` stands for.
   */
  method RunModel(model: string, i: nat, prompt: string, judgeEnv: Option<string>, chat: Chat, parse: JsonParser,
                  ghost attempt: Attempter<BenchResult>)
    returns (a: Attempt<BenchResult>)
    requires Attempting(attempt, prompt, JudgeModelOf(judgeEnv), chat, parse)
    ensures a == attempt(model, i)
  {
    var g := GenerationRequest(model, prompt);
    var gen := RunOneModel(chat(2 * i, g));
    if gen.Err? {
      a := Attempt([g], Err(gen.message));
    } else {
      var j := JudgeRequest(JudgeModelOf(judgeEnv), prompt, gen.value.output);
      var scores := ScoreOutput(chat, 2 * i + 1, judgeEnv, prompt, gen.value.output, parse);
      if scores.Err? {
        a := Attempt([g, j], Err(scores.message));
      } else {
        a := Attempt([g, j], Ok(BenchResult(model, gen.value.output, gen.value.latencyMs, scores.value)));
      }
    }
    assert a == TryModel(model, i, prompt, JudgeModelOf(judgeEnv), chat, parse);
  }

  /** The loop body for these arguments, as a value. */
  function Attempts(prompt: string, judgeModel: string, chat: Chat, parse: JsonParser): (attempt: Attempter<BenchResult>)
    ensures Attempting(attempt, prompt, judgeModel, chat, parse)
  {
    (model: string, i: nat) => TryModel(model, i, prompt, judgeModel, chat, parse)
  }

  /** `attempt` is the loop body `TryModel` for these arguments. */
  ghost predicate Attempting(attempt: Attempter<BenchResult>, prompt: string, judgeModel: string, chat: Chat, parse: JsonParser) {
    forall m: string, i: nat {:trigger TryModel(m, i, prompt, judgeModel, chat, parse)} ::
      attempt(m, i) == TryModel(m, i, prompt, judgeModel, chat, parse)
  }

  /** The loop of `runBenchmark` over all the models, in order. */
  function BenchLoop(models: seq<string>, prompt: string, judgeEnv: Option<string>, chat: Chat, parse: JsonParser): Progress<BenchResult> {
    Drive(models, Attempts(prompt, JudgeModelOf(judgeEnv), chat, parse), |models|)
  }

  /** What `runBenchmark` resolves to: the error that ended the loop, or the ranked results. */
  function Benchmark(models: seq<string>, prompt: string, judgeEnv: Option<string>, chat: Chat, parse: JsonParser): Result<seq<BenchResult>> {
    var p := BenchLoop(models, prompt, judgeEnv, chat, parse);
    if p.failure.Some? then Err(p.failure.value) else Ok(SortDesc(p.results, TotalOf))
  }

  /**
   * A benchmark that met no error processed the models strictly in input order: for model
   * `i`, request `2i` asked it for an answer, request `2i + 1` asked the judge about that
   * answer; the result names the model, carries the answer ("" when the reply had none),
   * the generation request's latency alone, and the judge's canonical scores.
   */
  lemma {:induction false} BenchmarkInOrder(models: seq<string>, prompt: string, judgeEnv: Option<string>, chat: Chat, parse: JsonParser)
    requires BenchLoop(models, prompt, judgeEnv, chat, parse).failure.None?
    ensures var p := BenchLoop(models, prompt, judgeEnv, chat, parse);
      && |p.results| == |models| && |p.calls| == 2 * |models|
      && Map(p.results, ModelOf) == models
      && forall i :: 0 <= i < |models| ==>
        && p.calls[2 * i] == GenerationRequest(models[i], prompt)
        && chat(2 * i, p.calls[2 * i]).Answered?
        && p.results[i].output == chat(2 * i, p.calls[2 * i]).content.GetOr("")
        && p.results[i].latencyMs == chat(2 * i, p.calls[2 * i]).elapsedMs as real
        && p.calls[2 * i + 1] == JudgeRequest(JudgeModelOf(judgeEnv), prompt, p.results[i].output)
        && JudgeOutcome(chat(2 * i + 1, p.calls[2 * i + 1]), parse) == Ok(p.results[i].scores)
        && Canonical(p.results[i].scores)
  {
    var attempt := Attempts(prompt, JudgeModelOf(judgeEnv), chat, parse);
    var p := BenchLoop(models, prompt, judgeEnv, chat, parse);
    forall i | 0 <= i < |models|
      ensures attempt(models[i], i).result.Ok? ==> |attempt(models[i], i).calls| == 2
    {
      assert attempt(models[i], i) == TryModel(models[i], i, prompt, JudgeModelOf(judgeEnv), chat, parse);
    }
    DriveInOrder(models, attempt, |models|);
    forall i | 0 <= i < |models|
      ensures
        && p.calls[2 * i] == GenerationRequest(models[i], prompt)
        && chat(2 * i, p.calls[2 * i]).Answered?
        && p.results[i].output == chat(2 * i, p.calls[2 * i]).content.GetOr("")
        && p.results[i].latencyMs == chat(2 * i, p.calls[2 * i]).elapsedMs as real
        && p.calls[2 * i + 1] == JudgeRequest(JudgeModelOf(judgeEnv), prompt, p.results[i].output)
        && JudgeOutcome(chat(2 * i + 1, p.calls[2 * i + 1]), parse) == Ok(p.results[i].scores)
        && Canonical(p.results[i].scores)
    {
      var a := TryModel(models[i], i, prompt, JudgeModelOf(judgeEnv), chat, parse);
      assert attempt(models[i], i) == a;
      assert a.result == Ok(p.results[i]);
    }
    forall i | 0 <= i < |models|
      ensures p.results[i].model == models[i]
    {
      assert attempt(models[i], i) == TryModel(models[i], i, prompt, JudgeModelOf(judgeEnv), chat, parse);
    }
  }

  /**
   * `runBenchmark`: the loop, then the ranking; any error is the outcome, and no partial
   * list is returned. `BenchmarkInOrder` and `BenchmarkRanked` state what the outcome holds.
   */
  method RunBenchmark(models: seq<string>, prompt: string, judgeEnv: Option<string>, chat: Chat, parse: JsonParser)
    returns (outcome: Result<seq<BenchResult>>, calls: seq<ChatRequest>)
    ensures outcome == Benchmark(models, prompt, judgeEnv, chat, parse)
    ensures calls == BenchLoop(models, prompt, judgeEnv, chat, parse).calls
  {
    ghost var attempt := Attempts(prompt, JudgeModelOf(judgeEnv), chat, parse);
    var p := RunModels(models, prompt, judgeEnv, chat, parse, attempt);
    calls := p.calls;
    if p.failure.Some? {
      return Err(p.failure.value), calls;
    }
    outcome := Ok(SortDesc(p.results, TotalOf));
  }

  /** The `for` loop of `runBenchmark`: the models in order, until the first error. */
  method RunModels(models: seq<string>, prompt: string, judgeEnv: Option<string>, chat: Chat, parse: JsonParser, ghost attempt: Attempter<BenchResult>)
    returns (p: Progress<BenchResult>)
    requires Attempting(attempt, prompt, JudgeModelOf(judgeEnv), chat, parse)
    ensures p == Drive(models, attempt, |models|)
  {
    var results: seq<BenchResult> := [];
    var calls: seq<ChatRequest> := [];
    var i := 0;
    while i < |models|
      invariant 0 <= i <= |models|
      invariant Drive(models, attempt, i) == Progress(results, calls, None)
    {
      var a := RunModel(models[i], i, prompt, judgeEnv, chat, parse, attempt);
      calls := calls + a.calls;
      if a.result.Err? {
        DriveFailurePersists(models, attempt, i + 1, |models|);
        return Progress(results, calls, Some(a.result.message));
      }
      results := results + [a.result.value];
      i := i + 1;
    }
    p := Progress(results, calls, None);
  }

  /**
   * A successful benchmark returns one result per input model, ranked by non-increasing
   * total with ties in input order, every score canonical.
   */
  lemma BenchmarkRanked(models: seq<string>, prompt: string, judgeEnv: Option<string>, chat: Chat, parse: JsonParser)
    ensures var outcome := Benchmark(models, prompt, judgeEnv, chat, parse);
      outcome.Ok? ==>
        && |outcome.value| == |models|
        && multiset(Map(outcome.value, ModelOf)) == multiset(models)
        && NonIncreasing(outcome.value, TotalOf)
        && (forall k :: 0 <= k < |outcome.value| ==> Canonical(outcome.value[k].scores))
        && forall t ::
          Filter(outcome.value, HasKey(TotalOf, t)) == Filter(BenchLoop(models, prompt, judgeEnv, chat, parse).results, HasKey(TotalOf, t))
  {
    var p := BenchLoop(models, prompt, judgeEnv, chat, parse);
    if p.failure.None? {
      BenchLoopResults(models, prompt, judgeEnv, chat, parse);
      Ranking(p.results, models);
    }
  }

  /** A successful loop has one result per model, in the models' order, each with canonical scores. */
  lemma BenchLoopResults(models: seq<string>, prompt: string, judgeEnv: Option<string>, chat: Chat, parse: JsonParser)
    requires BenchLoop(models, prompt, judgeEnv, chat, parse).failure.None?
    ensures var p := BenchLoop(models, prompt, judgeEnv, chat, parse);
      && Map(p.results, ModelOf) == models
      && forall i :: 0 <= i < |p.results| ==> HasCanonicalScores(p.results[i])
  {
    var attempt := Attempts(prompt, JudgeModelOf(judgeEnv), chat, parse);
    forall m, i
      ensures attempt(m, i).result.Ok? ==>
        attempt(m, i).result.value.model == m && HasCanonicalScores(attempt(m, i).result.value)
    {
      assert attempt(m, i) == TryModel(m, i, prompt, JudgeModelOf(judgeEnv), chat, parse);
    }
    DriveNamesModels(models, attempt, |models|, ModelOf);
    DriveKeeps(models, attempt, |models|, HasCanonicalScores);
    assert models[..|models|] == models;
  }

  predicate HasCanonicalScores(r: BenchResult) {
    Canonical(r.scores)
  }

  /**
   * The ranking of results that name `models` in order: one per model, by non-increasing total,
   * equal totals in their input order, every score still canonical.
   */
  lemma Ranking(results: seq<BenchResult>, models: seq<string>)
    requires Map(results, ModelOf) == models
    requires forall i :: 0 <= i < |results| ==> HasCanonicalScores(results[i])
    ensures var ranked := SortDesc(results, TotalOf);
      && |ranked| == |models|
      && multiset(Map(ranked, ModelOf)) == multiset(models)
      && NonIncreasing(ranked, TotalOf)
      && (forall k :: 0 <= k < |ranked| ==> Canonical(ranked[k].scores))
      && forall t :: Filter(ranked, HasKey(TotalOf, t)) == Filter(results, HasKey(TotalOf, t))
  {
    var ranked := SortDesc(results, TotalOf);
    SortDescSorted(results, TotalOf);
    SortDescMap(results, TotalOf, ModelOf);
    SortDescKeeps(results, TotalOf, HasCanonicalScores);
    forall t {
      SortDescStable(results, TotalOf, t);
    }
  }
}
