/**
 * app/api/benchmark/route.ts: the HTTP benchmark. `POST` validates its body, asks each model
 * for an answer and the judge for scores on it, and answers with the results ranked by total.
 * Unlike lib/bench.ts it neither clamps nor rounds the judge's scores, times both requests,
 * and reads the judge's answer with a single `JSON.parse`.
 */
module BenchmarkRoute {
  import opened Wrappers
  import opened Js
  import opened Text
  import opened Seqs
  import opened StableSort
  import opened Backend
  import opened Loop
  import Judge
  import Bench

  /** `litellmChat`'s default temperature, used for the generation request. */
  const GenerationTemperature: real := 0.7

  /** The judge request passes temperature 0. */
  const JudgeTemperature: real := 0.0

  const WriterInstruction: string := "You are a creative writer."
  const JudgeInstruction: string := "Return JSON only."

  /** The 400 error of a body without a prompt or without models. */
  const InvalidInput: string := "Missing prompt or models"

  /** The 500 error when the thrown error has an empty message. */
  const ServerError: string := "Server error"

  /** What the judge's answer is replaced by when it has no content. */
  const EmptyObject: string := "{}"

  /** The two variables `litellmChat` reads from `process.env`, `None` when unset. */
  datatype Env = Env(baseUrl: Option<string>, masterKey: Option<string>)

  /** `assertEnv(name)`: the variable's value, or the error thrown when it is unset or empty. */
  function AssertEnv(name: string, v: Option<string>): (r: Result<string>)
    ensures r.Ok? <==> v.Some? && v.value != ""
    ensures r.Ok? ==> r.value == v.value
    ensures r.Err? ==> r.message == "Missing " + name + " environment variable"
  {
    if v.Some? && v.value != "" then Ok(v.value) else Err("Missing " + name + " environment variable")
  }

  /** The error of the two `assertEnv` calls `litellmChat` makes before it fetches: the base URL is checked first. */
  function EnvError(env: Env): (r: Option<string>)
    ensures r.None? <==> AssertEnv("LITELLM_BASE_URL", env.baseUrl).Ok? && AssertEnv("LITELLM_MASTER_KEY", env.masterKey).Ok?
    ensures AssertEnv("LITELLM_BASE_URL", env.baseUrl).Err? ==> r == Some(AssertEnv("LITELLM_BASE_URL", env.baseUrl).message)
    ensures AssertEnv("LITELLM_BASE_URL", env.baseUrl).Ok? && AssertEnv("LITELLM_MASTER_KEY", env.masterKey).Err? ==>
      r == Some(AssertEnv("LITELLM_MASTER_KEY", env.masterKey).message)
  {
    match AssertEnv("LITELLM_BASE_URL", env.baseUrl)
    case Err(e) => Some(e)
    case Ok(_) =>
      match AssertEnv("LITELLM_MASTER_KEY", env.masterKey)
      case Err(e) => Some(e)
      case Ok(_) => None
  }

  /** What this route's `litellmChat` throws for a non-2xx status starts with this, followed by the status. */
  const StatusErrorPrefix: string := "LiteLLM "

  /** The score record of this route: JavaScript numbers, which may be NaN or infinite. */
  datatype RouteScores = RouteScores(
    characterClarity: JsNumber,
    originality: JsNumber,
    sensoryDetail: JsNumber,
    toneConsistency: JsNumber,
    total: JsNumber)

  /** `Number(v ?? 0)`. */
  function ToNumber(v: Field, numberOf: StringToNumber): JsNumber {
    match v
    case Missing => Finite(0.0)
    case Number(n) => n
    case Text(s) => numberOf(s)
  }

  /**
   * `normalizeScores`: each field converted with `Number`, a missing one as 0, and the
   * total their JavaScript sum; nothing is clamped or rounded.
   */
  function NormalizeScores(raw: Judge.RawScores, numberOf: StringToNumber): (s: RouteScores)
    ensures s.characterClarity == ToNumber(raw.characterClarity, numberOf)
    ensures s.originality == ToNumber(raw.originality, numberOf)
    ensures s.sensoryDetail == ToNumber(raw.sensoryDetail, numberOf)
    ensures s.toneConsistency == ToNumber(raw.toneConsistency, numberOf)
    ensures s.total.Finite? <==>
      s.characterClarity.Finite? && s.originality.Finite? && s.sensoryDetail.Finite? && s.toneConsistency.Finite?
    ensures s.total.Finite? ==>
      s.total.value == s.characterClarity.value + s.originality.value + s.sensoryDetail.value + s.toneConsistency.value
  {
    var c := ToNumber(raw.characterClarity, numberOf);
    var o := ToNumber(raw.originality, numberOf);
    var d := ToNumber(raw.sensoryDetail, numberOf);
    var t := ToNumber(raw.toneConsistency, numberOf);
    RouteScores(c, o, d, t, Add(Add(Add(c, o), d), t))
  }

  /** Numeric fields are kept exactly, out-of-range and fractional ones included, and a judge's `total` is ignored. */
  lemma {:induction false} NumbersKept(c: real, o: real, d: real, t: real, total: Field)
    ensures NormalizeScores(Judge.RawScores(Number(Finite(c)), Number(Finite(o)), Number(Finite(d)), Number(Finite(t)), total), s => NaN)
         == RouteScores(Finite(c), Finite(o), Finite(d), Finite(t), Finite(c + o + d + t))
  {
  }

  /** 12, -3 and 7.6 stay as they are (lib/judge.ts would give 10, 0 and 8), and a missing field counts 0. */
  lemma {:induction false} UnclampedExample(numberOf: StringToNumber)
    ensures NormalizeScores(Judge.RawScores(Number(Finite(12.0)), Number(Finite(-3.0)), Number(Finite(7.6)), Missing, Missing), numberOf)
         == RouteScores(Finite(12.0), Finite(-3.0), Finite(7.6), Finite(0.0), Finite(16.6))
  {
  }

  /** A NaN field, such as `Number("abc")`, makes the total NaN. */
  lemma {:induction false} NaNTotal(raw: Judge.RawScores, numberOf: StringToNumber)
    requires ToNumber(raw.characterClarity, numberOf).NaN?
    ensures NormalizeScores(raw, numberOf).total.NaN?
  {
  }

  /** The first line of the judge's instructions, up to the prompt. */
  const PromptHeading: string := "Evaluate the creative writing below.\n\n" + "PROMPT:\n"

  /** The text between the prompt and the model output. */
  const OutputHeading: string := "\n\nOUTPUT:\n"

  /** The answer format after the model output. */
  const AnswerFormat: string :=
    "\n\nReturn JSON ONLY:\n"
    + "{\n"
    + "  \"character_clarity\": number (0-10),\n"
    + "  \"originality\": number (0-10),\n"
    + "  \"sensory_detail\": number (0-10),\n"
    + "  \"tone_consistency\": number (0-10)\n"
    + "}"

  /**
   * `judgePrompt`: the heading, the prompt and the model output, both verbatim, and the answer
   * format. `JudgePromptIsTrimmedTemplate` shows that this is the trimmed template literal.
   */
  function JudgePrompt(prompt: string, output: string): string {
    PromptHeading + prompt + OutputHeading + output + AnswerFormat
  }

  /** The template literal of `judgePrompt` before it is trimmed: it opens and closes with a line break. */
  function JudgeTemplate(prompt: string, output: string): string {
    "\n" + JudgePrompt(prompt, output) + "\n"
  }

  /** `trim` removes only the template's two outer line breaks, whatever the prompt and the output hold. */
  lemma JudgePromptIsTrimmedTemplate(prompt: string, output: string)
    ensures JudgePrompt(prompt, output) == Trim(JudgeTemplate(prompt, output))
  {
    var a := JudgePrompt(prompt, output);
    assert PromptHeading[0] == 'E';
    assert a[0] == 'E';
    assert AnswerFormat[|AnswerFormat| - 1] == '}';
    assert a[|a| - 1] == '}';
    TrimPadded("\n", a, "\n");
  }

  /** The body fields `POST` reads after `req.json()`: `None` stands for a missing or `null` field, or a non-array `models`. */
  datatype Body = Body(prompt: Option<string>, models: Option<seq<string>>, judgeModel: Option<string>)

  /** The request after the first three lines of `POST`. */
  datatype Input = Input(prompt: string, models: seq<string>, judgeModel: string)

  /**
   * `String(body.prompt || "")`, `Array.isArray(body.models) ? body.models : []` and
   * `body.judgeModel || "openai/gpt-4o-mini"`.
   */
  function ReadBody(body: Body): (r: Input)
    ensures r.prompt == body.prompt.GetOr("")
    ensures r.models == body.models.GetOr([])
    ensures r.judgeModel == Bench.JudgeModelOf(body.judgeModel)
  {
    Input(body.prompt.GetOr(""), body.models.GetOr([]), Bench.JudgeModelOf(body.judgeModel))
  }

  /** The validation of `POST`: a non-empty prompt (white space counts) and at least one model. */
  predicate Acceptable(input: Input) {
    input.prompt != "" && |input.models| > 0
  }

  /** A body passes validation exactly when it has a non-empty prompt and a non-empty array of models. */
  lemma AcceptableBody(body: Body)
    ensures Acceptable(ReadBody(body)) <==>
      body.prompt.Some? && body.prompt.value != "" && body.models.Some? && |body.models.value| > 0
  {
  }

  /** A prompt of white space alone is not rejected: the route does not trim it. */
  lemma BlankPromptAccepted()
    ensures Acceptable(ReadBody(Body(Some(" "), Some(["m"]), None)))
  {
  }

  function GenerationRequest(model: string, prompt: string): ChatRequest {
    ChatRequest(model, [ChatMsg(System, WriterInstruction), ChatMsg(User, prompt)], GenerationTemperature)
  }

  function JudgeRequest(judgeModel: string, prompt: string, output: string): ChatRequest {
    ChatRequest(judgeModel, [ChatMsg(System, JudgeInstruction), ChatMsg(User, JudgePrompt(prompt, output))], JudgeTemperature)
  }

  /**
   * `normalizeScores(JSON.parse(content ?? "{}"))`: a parse error propagates, and `null`
   * makes `normalizeScores` throw when it reads the first field.
   */
  function ReadScores(content: Option<string>, parse: Bench.JsonParser, numberOf: StringToNumber): (r: Result<RouteScores>)
    ensures parse(content.GetOr(EmptyObject)).Err? ==> r == Err(parse(content.GetOr(EmptyObject)).message)
    ensures parse(content.GetOr(EmptyObject)) == Ok(Bench.Null) ==> r == Err(Bench.NullFieldError)
    ensures parse(content.GetOr(EmptyObject)).Ok? && parse(content.GetOr(EmptyObject)).value.Value? ==>
      r == Ok(NormalizeScores(parse(content.GetOr(EmptyObject)).value.fields, numberOf))
  {
    match parse(content.GetOr(EmptyObject))
    case Err(e) => Err(e)
    case Ok(Null) => Err(Bench.NullFieldError)
    case Ok(Value(fields)) => Ok(NormalizeScores(fields, numberOf))
  }

  /** With no judge content and a parser that reads `{}` as the empty object, every score is 0. */
  lemma MissingJudgeContent(parse: Bench.JsonParser, numberOf: StringToNumber)
    requires parse(EmptyObject) == Ok(Bench.Value(Judge.NoScores))
    ensures ReadScores(None, parse, numberOf) == Ok(RouteScores(Finite(0.0), Finite(0.0), Finite(0.0), Finite(0.0), Finite(0.0)))
  {
  }

  /** One result: the model, its answer, the scores, and the time from before the first request to after the second. */
  datatype RouteResult = RouteResult(model: string, output: string, scores: RouteScores, latencyMs: nat)

  function ModelOf(r: RouteResult): string {
    r.model
  }

  /**
   * `x / (1 + |x|)`: a strictly increasing map of the reals into the open interval (-1, 1),
   * which leaves 1 and -1 free for the two infinities.
   */
  function Squash(x: real): (y: real)
    ensures -1.0 < y < 1.0
    ensures x < 0.0 ==> y < 0.0
    ensures x == 0.0 ==> y == 0.0
    ensures x > 0.0 ==> y > 0.0
  {
    var d := 1.0 + (if x < 0.0 then -x else x);
    assert d > 0.0;
    var y := x / d;
    assert y * d == x;
    y
  }

  lemma SquashIncreasing(x: real, y: real)
    requires x < y
    ensures Squash(x) < Squash(y)
  {
    var dx := 1.0 + (if x < 0.0 then -x else x);
    var dy := 1.0 + (if y < 0.0 then -y else y);
    var fx, fy := Squash(x), Squash(y);
    assert fx * dx == x;
    assert fy * dy == y;
    // x (1 + |y|) < y (1 + |x|) in each sign case
    assert x * dy < y * dx;
    assert fx * (dx * dy) == x * dy;
    assert fy * (dx * dy) == y * dx;
    CancelPositive(fx, fy, dx * dy);
  }

  lemma CancelPositive(p: real, q: real, k: real)
    requires k > 0.0 && p * k < q * k
    ensures p < q
  {
  }

  /**
   * The ranking key of `results.sort((a, b) => b.scores.total - a.scores.total)`. The comparator
   * orders totals as the extended number line does, +Infinity first and -Infinity last, so
   * finite totals are squashed into (-1, 1) in order and the infinities take 1 and -1
   * (`RankKeyIsComparator`). A NaN total is ranked as a total of 0.
   */
  function RankKey(r: RouteResult): real {
    match r.scores.total
    case Finite(x) => Squash(x)
    case PosInf => 1.0
    case NegInf => -1.0
    case NaN => 0.0
  }

  /** The comparator `(a, b) => b.scores.total - a.scores.total`. */
  function Comparator(a: RouteResult, b: RouteResult): JsNumber {
    Sub(b.scores.total, a.scores.total)
  }

  /**
   * Between totals that are not NaN, the key orders as the comparator does: the comparator is
   * positive (`b` goes first) exactly when `b`'s key is greater, and negative exactly when
   * `a`'s key is greater. Otherwise it is 0, or NaN for two equal infinities, which
   * `Array.prototype.sort` reads as +0, and the keys are equal.
   */
  lemma RankKeyIsComparator(a: RouteResult, b: RouteResult)
    requires !a.scores.total.NaN? && !b.scores.total.NaN?
    ensures GreaterThan(Comparator(a, b), 0.0) <==> RankKey(a) < RankKey(b)
    ensures GreaterThan(Neg(Comparator(a, b)), 0.0) <==> RankKey(b) < RankKey(a)
  {
    if a.scores.total.Finite? && b.scores.total.Finite? {
      var x, y := a.scores.total.value, b.scores.total.value;
      if x < y {
        SquashIncreasing(x, y);
      } else if y < x {
        SquashIncreasing(y, x);
      }
    }
  }

  /** The comparator never asks to put a later result before an earlier one, NaN totals aside. */
  predicate ComparatorKeepsOrder(ranked: seq<RouteResult>) {
    forall i, j :: 0 <= i < j < |ranked| && !ranked[i].scores.total.NaN? && !ranked[j].scores.total.NaN? ==>
      !GreaterThan(Comparator(ranked[i], ranked[j]), 0.0)
  }

  /** A list sorted by `RankKey` is in an order the comparator accepts. */
  lemma RankedForComparator(ranked: seq<RouteResult>)
    requires NonIncreasing(ranked, RankKey)
    ensures ComparatorKeepsOrder(ranked)
  {
    forall i, j | 0 <= i < j < |ranked| && !ranked[i].scores.total.NaN? && !ranked[j].scores.total.NaN?
      ensures !GreaterThan(Comparator(ranked[i], ranked[j]), 0.0)
    {
      RankKeyIsComparator(ranked[i], ranked[j]);
    }
  }

  /** A +Infinity total (`Number("Infinity")` as a score) ranks above 20, and a -Infinity total below it. */
  lemma {:induction false} InfinitiesRankOutside(a: RouteResult, b: RouteResult, c: RouteResult)
    requires a.scores.total == PosInf && b.scores.total == Finite(20.0) && c.scores.total == NegInf
    ensures SortDesc([c, b, a], RankKey) == [a, b, c]
  {
    assert RankKey(b) < 1.0 && RankKey(b) > -1.0;
    assert [c, b, a][1..] == [b, a];
    assert [b, a][1..] == [a];
    assert SortDesc([a], RankKey) == [a];
    assert Insert(b, [a], RankKey) == [a, b] by {
      assert [a][1..] == [];
    }
    assert Insert(c, [b], RankKey) == [b, c] by {
      assert [b][1..] == [];
    }
    assert Insert(c, [a, b], RankKey) == [a, b, c] by {
      assert [a, b][1..] == [b];
    }
  }

  /**
   * The body of the loop for the model at position `i`, whose requests are numbered `2i`
   * (generation) and `2i + 1` (judge). `litellmChat` checks the environment before each
   * request; the second check sees the same environment as the first, so it passes.
   */
  function TryModel(model: string, i: nat, input: Input, env: Env, chat: Chat, parse: Bench.JsonParser, numberOf: StringToNumber)
    : (a: Attempt<RouteResult>)
    ensures EnvError(env).Some? ==> a == Attempt([], Err(EnvError(env).value))
    ensures EnvError(env).None? ==> |a.calls| >= 1 && a.calls[0] == GenerationRequest(model, input.prompt)
    ensures a.result.Ok? ==>
      && |a.calls| == 2
      && chat(2 * i, a.calls[0]).Answered?
      && chat(2 * i + 1, a.calls[1]).Answered?
      && a.result.value.model == model
      && a.result.value.output == chat(2 * i, a.calls[0]).content.GetOr("")
      && a.calls[1] == JudgeRequest(input.judgeModel, input.prompt, a.result.value.output)
      && a.result.value.latencyMs == chat(2 * i, a.calls[0]).elapsedMs + chat(2 * i + 1, a.calls[1]).elapsedMs
      && ReadScores(chat(2 * i + 1, a.calls[1]).content, parse, numberOf) == Ok(a.result.value.scores)
  {
    match EnvError(env)
    case Some(e) => Attempt([], Err(e))
    case None =>
      var g := GenerationRequest(model, input.prompt);
      match ChatOutcome(chat(2 * i, g), StatusErrorPrefix)
      case Err(e) => Attempt([g], Err(e))
      case Ok(gen) =>
        var output := gen.content.GetOr("");
        var j := JudgeRequest(input.judgeModel, input.prompt, output);
        match ChatOutcome(chat(2 * i + 1, j), StatusErrorPrefix)
        case Err(e) => Attempt([g, j], Err(e))
        case Ok(judge) =>
          match ReadScores(judge.content, parse, numberOf)
          case Err(e) => Attempt([g, j], Err(e))
          case Ok(scores) => Attempt([g, j], Ok(RouteResult(model, output, scores, gen.elapsedMs + judge.elapsedMs)))
  }

  /** The loop body for these arguments, as a value. */
  function Attempts(input: Input, env: Env, chat: Chat, parse: Bench.JsonParser, numberOf: StringToNumber): (attempt: Attempter<RouteResult>)
    ensures Attempting(attempt, input, env, chat, parse, numberOf)
  {
    (model: string, i: nat) => TryModel(model, i, input, env, chat, parse, numberOf)
  }

  /** `attempt` is the loop body `TryModel` for these arguments. */
  ghost predicate Attempting(attempt: Attempter<RouteResult>, input: Input, env: Env, chat: Chat, parse: Bench.JsonParser, numberOf: StringToNumber) {
    forall m: string, i: nat {:trigger TryModel(m, i, input, env, chat, parse, numberOf)} ::
      attempt(m, i) == TryModel(m, i, input, env, chat, parse, numberOf)
  }

  /** The `for` loop of `POST` over the models, in order, until the first error. */
  function RouteLoop(input: Input, env: Env, chat: Chat, parse: Bench.JsonParser, numberOf: StringToNumber): Progress<RouteResult> {
    Drive(input.models, Attempts(input, env, chat, parse, numberOf), |input.models|)
  }

  /** The response of `POST`. */
  datatype Response =
      /** Status 200 with `{ mode: "litellm", results }`. */
    | Ranked(results: seq<RouteResult>)
      /** An error status with `{ error }`. */
    | Failure(status: nat, error: string)

  /** `e.message || "Server error"`. */
  function ErrorText(message: string): (r: string)
    ensures r != ""
    ensures message != "" ==> r == message
  {
    if message == "" then ServerError else message
  }

  /** What `POST` answers, given what `req.json()` produced. */
  function Respond(body: Result<Body>, env: Env, chat: Chat, parse: Bench.JsonParser, numberOf: StringToNumber): Response {
    match body
    case Err(e) => Failure(500, ErrorText(e))
    case Ok(b) =>
      var input := ReadBody(b);
      if !Acceptable(input) then Failure(400, InvalidInput)
      else
        var p := RouteLoop(input, env, chat, parse, numberOf);
        if p.failure.Some? then Failure(500, ErrorText(p.failure.value))
        else Ranked(SortDesc(p.results, RankKey))
  }

  /** The requests `POST` sends. */
  function Sent(body: Result<Body>, env: Env, chat: Chat, parse: Bench.JsonParser, numberOf: StringToNumber): seq<ChatRequest> {
    if body.Err? || !Acceptable(ReadBody(body.value)) then []
    else RouteLoop(ReadBody(body.value), env, chat, parse, numberOf).calls
  }

  /**
   * One iteration of the loop in `POST`: the generation request, the judge request on its
   * answer, and the reading of the scores; an error in any ends the iteration.
   */
  method RunModel(model: string, i: nat, input: Input, env: Env, chat: Chat, parse: Bench.JsonParser, numberOf: StringToNumber,
                  ghost attempt: Attempter<RouteResult>)
    returns (a: Attempt<RouteResult>)
    requires Attempting(attempt, input, env, chat, parse, numberOf)
    ensures a == attempt(model, i)
  {
    var envError := EnvError(env);
    if envError.Some? {
      a := Attempt([], Err(envError.value));
    } else {
      var g := GenerationRequest(model, input.prompt);
      var gen := ChatOutcome(chat(2 * i, g), StatusErrorPrefix);
      if gen.Err? {
        a := Attempt([g], Err(gen.message));
      } else {
        var output := gen.value.content.GetOr("");
        var j := JudgeRequest(input.judgeModel, input.prompt, output);
        var judge := ChatOutcome(chat(2 * i + 1, j), StatusErrorPrefix);
        if judge.Err? {
          a := Attempt([g, j], Err(judge.message));
        } else {
          var scores := ReadScores(judge.value.content, parse, numberOf);
          if scores.Err? {
            a := Attempt([g, j], Err(scores.message));
          } else {
            a := Attempt([g, j], Ok(RouteResult(model, output, scores.value, gen.value.elapsedMs + judge.value.elapsedMs)));
          }
        }
      }
    }
    assert a == TryModel(model, i, input, env, chat, parse, numberOf);
  }

  /** The `for` loop of `POST`: `results.push` for each model, until the first error. */
  method RunModels(input: Input, env: Env, chat: Chat, parse: Bench.JsonParser, numberOf: StringToNumber, ghost attempt: Attempter<RouteResult>)
    returns (p: Progress<RouteResult>)
    requires Attempting(attempt, input, env, chat, parse, numberOf)
    ensures p == Drive(input.models, attempt, |input.models|)
  {
    var results: seq<RouteResult> := [];
    var calls: seq<ChatRequest> := [];
    var i := 0;
    while i < |input.models|
      invariant 0 <= i <= |input.models|
      invariant Drive(input.models, attempt, i) == Progress(results, calls, None)
    {
      var a := RunModel(input.models[i], i, input, env, chat, parse, numberOf, attempt);
      calls := calls + a.calls;
      if a.result.Err? {
        DriveFailurePersists(input.models, attempt, i + 1, |input.models|);
        return Progress(results, calls, Some(a.result.message));
      }
      results := results + [a.result.value];
      i := i + 1;
    }
    p := Progress(results, calls, None);
  }

  /** `POST`: validation, the loop, the sort, and the catch that turns any error into a 500 response. */
  method Post(body: Result<Body>, env: Env, chat: Chat, parse: Bench.JsonParser, numberOf: StringToNumber)
    returns (response: Response, calls: seq<ChatRequest>)
    ensures response == Respond(body, env, chat, parse, numberOf)
    ensures calls == Sent(body, env, chat, parse, numberOf)
  {
    if body.Err? {
      return Failure(500, ErrorText(body.message)), [];
    }
    var input := ReadBody(body.value);
    if input.prompt == "" || |input.models| == 0 {
      return Failure(400, InvalidInput), [];
    }
    ghost var attempt := Attempts(input, env, chat, parse, numberOf);
    var p := RunModels(input, env, chat, parse, numberOf, attempt);
    calls := p.calls;
    if p.failure.Some? {
      return Failure(500, ErrorText(p.failure.value)), calls;
    }
    response := Ranked(SortDesc(p.results, RankKey));
  }

  /** Status 400 is answered exactly for a parsed body that fails validation, and then no request is sent. */
  lemma RejectsInvalidBody(body: Result<Body>, env: Env, chat: Chat, parse: Bench.JsonParser, numberOf: StringToNumber)
    ensures Respond(body, env, chat, parse, numberOf).Failure? && Respond(body, env, chat, parse, numberOf).status == 400
      <==> body.Ok? && !Acceptable(ReadBody(body.value))
    ensures body.Ok? && !Acceptable(ReadBody(body.value)) ==>
      Respond(body, env, chat, parse, numberOf) == Failure(400, InvalidInput) && Sent(body, env, chat, parse, numberOf) == []
  {
  }

  /** A missing or empty variable: one 500 response with `assertEnv`'s message, before any request. */
  lemma {:induction false} MissingEnv(body: Body, env: Env, chat: Chat, parse: Bench.JsonParser, numberOf: StringToNumber)
    requires Acceptable(ReadBody(body))
    requires EnvError(env).Some?
    ensures Respond(Ok(body), env, chat, parse, numberOf) == Failure(500, EnvError(env).value)
    ensures Sent(Ok(body), env, chat, parse, numberOf) == []
  {
    var input := ReadBody(body);
    var attempt := Attempts(input, env, chat, parse, numberOf);
    assert attempt(input.models[0], 0) == TryModel(input.models[0], 0, input, env, chat, parse, numberOf);
    DriveFailurePersists(input.models, attempt, 1, |input.models|);
    assert EnvError(env).value != "" by {
      assert "Missing "[0] == 'M';
    }
  }

  /**
   * Every 500 response after validation carries the error of the first model whose
   * iteration failed (or "Server error" when that message is empty), and no results.
   */
  lemma {:induction false} FailureIsFirstError(body: Body, env: Env, chat: Chat, parse: Bench.JsonParser, numberOf: StringToNumber)
    requires Acceptable(ReadBody(body))
    ensures var input := ReadBody(body);
      var attempt := Attempts(input, env, chat, parse, numberOf);
      Respond(Ok(body), env, chat, parse, numberOf).Failure? <==>
        exists i :: 0 <= i < |input.models| && attempt(input.models[i], i).result.Err?
    ensures var input := ReadBody(body);
      var attempt := Attempts(input, env, chat, parse, numberOf);
      Respond(Ok(body), env, chat, parse, numberOf).Failure? ==>
        exists i :: 0 <= i < |input.models| && attempt(input.models[i], i).result.Err?
          && Respond(Ok(body), env, chat, parse, numberOf) == Failure(500, ErrorText(attempt(input.models[i], i).result.message))
          && forall j :: 0 <= j < i ==> attempt(input.models[j], j).result.Ok?
  {
    var input := ReadBody(body);
    DriveFirstFailure(input.models, Attempts(input, env, chat, parse, numberOf), |input.models|);
  }

  /**
   * A successful response processed the models strictly in input order: for model `i`,
   * request `2i` asked it at temperature 0.7, request `2i + 1` asked the judge at temperature 0
   * about its answer ("" when the reply had none); the latency is that of both requests.
   */
  lemma {:induction false} PostInOrder(body: Body, env: Env, chat: Chat, parse: Bench.JsonParser, numberOf: StringToNumber)
    requires Acceptable(ReadBody(body))
    requires RouteLoop(ReadBody(body), env, chat, parse, numberOf).failure.None?
    ensures var input := ReadBody(body);
      var p := RouteLoop(input, env, chat, parse, numberOf);
      && |p.results| == |input.models| && |p.calls| == 2 * |input.models|
      && forall i :: 0 <= i < |input.models| ==>
        && p.calls[2 * i] == GenerationRequest(input.models[i], input.prompt)
        && p.calls[2 * i].temperature == 0.7
        && chat(2 * i, p.calls[2 * i]).Answered?
        && p.results[i].model == input.models[i]
        && p.results[i].output == chat(2 * i, p.calls[2 * i]).content.GetOr("")
        && p.calls[2 * i + 1] == JudgeRequest(input.judgeModel, input.prompt, p.results[i].output)
        && p.calls[2 * i + 1].temperature == 0.0
        && chat(2 * i + 1, p.calls[2 * i + 1]).Answered?
        && p.results[i].latencyMs == chat(2 * i, p.calls[2 * i]).elapsedMs + chat(2 * i + 1, p.calls[2 * i + 1]).elapsedMs
        && ReadScores(chat(2 * i + 1, p.calls[2 * i + 1]).content, parse, numberOf) == Ok(p.results[i].scores)
  {
    var input := ReadBody(body);
    var attempt := Attempts(input, env, chat, parse, numberOf);
    var p := RouteLoop(input, env, chat, parse, numberOf);
    forall i | 0 <= i < |input.models|
      ensures attempt(input.models[i], i).result.Ok? ==> |attempt(input.models[i], i).calls| == 2
    {
      assert attempt(input.models[i], i) == TryModel(input.models[i], i, input, env, chat, parse, numberOf);
    }
    DriveInOrder(input.models, attempt, |input.models|);
    forall i | 0 <= i < |input.models|
      ensures
        && p.calls[2 * i] == GenerationRequest(input.models[i], input.prompt)
        && p.calls[2 * i].temperature == 0.7
        && chat(2 * i, p.calls[2 * i]).Answered?
        && p.results[i].model == input.models[i]
        && p.results[i].output == chat(2 * i, p.calls[2 * i]).content.GetOr("")
        && p.calls[2 * i + 1] == JudgeRequest(input.judgeModel, input.prompt, p.results[i].output)
        && p.calls[2 * i + 1].temperature == 0.0
        && chat(2 * i + 1, p.calls[2 * i + 1]).Answered?
        && p.results[i].latencyMs == chat(2 * i, p.calls[2 * i]).elapsedMs + chat(2 * i + 1, p.calls[2 * i + 1]).elapsedMs
        && ReadScores(chat(2 * i + 1, p.calls[2 * i + 1]).content, parse, numberOf) == Ok(p.results[i].scores)
    {
      var a := TryModel(input.models[i], i, input, env, chat, parse, numberOf);
      assert attempt(input.models[i], i) == a;
      assert a.result == Ok(p.results[i]);
    }
  }

  /**
   * A successful response holds one result per model, ranked by non-increasing total with
   * ties in input order.
   */
  lemma {:induction false} PostRanked(body: Body, env: Env, chat: Chat, parse: Bench.JsonParser, numberOf: StringToNumber)
    ensures var response := Respond(Ok(body), env, chat, parse, numberOf);
      response.Ranked? ==>
        var input := ReadBody(body);
        && |response.results| == |input.models|
        && multiset(Map(response.results, ModelOf)) == multiset(input.models)
        && NonIncreasing(response.results, RankKey)
        && ComparatorKeepsOrder(response.results)
        && forall t :: Filter(response.results, HasKey(RankKey, t))
                    == Filter(RouteLoop(input, env, chat, parse, numberOf).results, HasKey(RankKey, t))
  {
    var input := ReadBody(body);
    var attempt := Attempts(input, env, chat, parse, numberOf);
    var p := RouteLoop(input, env, chat, parse, numberOf);
    if Respond(Ok(body), env, chat, parse, numberOf).Ranked? {
      forall m, i
        ensures attempt(m, i).result.Ok? ==> ModelOf(attempt(m, i).result.value) == m
      {
        assert attempt(m, i) == TryModel(m, i, input, env, chat, parse, numberOf);
      }
      DriveNamesModels(input.models, attempt, |input.models|, ModelOf);
      assert input.models[..|input.models|] == input.models;
      Ranking(p.results, input.models);
      RankedForComparator(SortDesc(p.results, RankKey));
    }
  }

  /** The ranking of results that name `models` in order. */
  lemma Ranking(results: seq<RouteResult>, models: seq<string>)
    requires Map(results, ModelOf) == models
    ensures var ranked := SortDesc(results, RankKey);
      && |ranked| == |models|
      && multiset(Map(ranked, ModelOf)) == multiset(models)
      && NonIncreasing(ranked, RankKey)
      && forall t :: Filter(ranked, HasKey(RankKey, t)) == Filter(results, HasKey(RankKey, t))
  {
    SortDescSorted(results, RankKey);
    SortDescMap(results, RankKey, ModelOf);
    forall t {
      SortDescStable(results, RankKey, t);
    }
  }
}
