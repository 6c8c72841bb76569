/**
 * app/api/litellm-chat/route.ts: a chat endpoint that forwards one request to the OpenAI
 * chat-completions API. The body may carry `messages` or just a `prompt`; a provider-prefixed
 * model name such as "openai/gpt-4o-mini" is cut to the name OpenAI knows.
 * The upstream request is not modelled: it is answered by an oracle parameter.
 */
module LitellmChat {
  import opened Wrappers
  import opened Js
  import opened Text
  import opened Backend

  /** The model used when the body names none. */
  const DefaultModel: string := "gpt-4o-mini"

  /** The temperature used when the body gives none. */
  const DefaultTemperature: real := 0.7

  const MissingKeyError: string := "Missing OPENAI_API_KEY in Vercel environment variables"

  /**
   * The parsed request body. `None` and `Missing` stand for a field that is absent or `null`;
   * `temperature` is passed on as the body gives it.
   */
  datatype ChatBody = ChatBody(
    messages: Option<seq<ChatMsg>>,
    prompt: Option<string>,
    model: Option<string>,
    temperature: Field)

  /**
   * The messages sent upstream: the body's own `messages` when present; otherwise one user
   * message holding the prompt when it is a non-empty string, or else the body serialised
   * as JSON (`serialise` stands for `JSON.stringify`).
   */
  function Messages(body: ChatBody, serialise: ChatBody -> string): (r: seq<ChatMsg>)
    ensures body.messages.Some? ==> r == body.messages.value
    ensures body.messages.None? ==> |r| == 1 && r[0].role == User
    ensures body.messages.None? && body.prompt.Some? && body.prompt.value != "" ==> r[0].content == body.prompt.value
    ensures body.messages.None? && (body.prompt.None? || body.prompt.value == "") ==> r[0].content == serialise(body)
  {
    match body.messages
    case Some(ms) => ms
    case None =>
      if body.prompt.Some? && body.prompt.value != "" then [ChatMsg(User, body.prompt.value)]
      else [ChatMsg(User, serialise(body))]
  }

  /**
   * The name OpenAI knows, `raw.split("/").pop()`: `raw` itself when it has no `/`, else the
   * part after its last `/` (the longest suffix without a `/`, which follows a `/`).
   */
  function NormaliseModel(raw: string): (m: string)
    ensures '/' !in m
    ensures '/' !in raw ==> m == raw
    ensures '/' in raw ==> |m| < |raw| && raw[|raw| - |m| - 1] == '/' && raw[|raw| - |m|..] == m
  {
    if '/' in raw then raw[LastIndexOf(raw, '/') + 1..] else raw
  }

  /** The documented example: the provider prefix is removed. */
  lemma {:induction false} NormaliseExample()
    ensures NormaliseModel("openai/gpt-4o-mini") == "gpt-4o-mini"
  {
    var raw := "openai/gpt-4o-mini";
    assert raw[6] == '/';
    assert forall k :: 6 < k < |raw| ==> raw[k] != '/';
    assert LastIndexOf(raw, '/') == 6;
  }

  /** `body?.temperature ?? 0.7`: a temperature of 0 is kept; only an absent or null one is replaced. */
  function Temperature(t: Field): (r: Field)
    ensures !t.Missing? ==> r == t
    ensures t.Missing? ==> r == Number(Finite(DefaultTemperature))
  {
    if t.Missing? then Number(Finite(DefaultTemperature)) else t
  }

  /** The JSON body sent to OpenAI. */
  datatype OpenAiRequest = OpenAiRequest(model: string, messages: seq<ChatMsg>, temperature: Field)

  /** What came back from OpenAI. */
  datatype Upstream =
      /** A 2xx response; `choices[0].message.content` when present. */
    | Completed(content: Option<string>)
      /** A non-2xx response: its status and its `error` field (or the whole body). */
    | Refused(status: nat, error: string)
      /** `fetch` or `r.json()` threw, with this message. */
    | Threw(message: string)

  /** The OpenAI API, as an oracle. */
  type OpenAi = OpenAiRequest -> Upstream

  /** The route's JSON response. */
  datatype Response = Content(content: string) | Failure(status: nat, error: string)

  /** The key is present when it is a non-empty string. */
  predicate HasKey(apiKey: Option<string>) {
    apiKey.Some? && apiKey.value != ""
  }

  /**
   * The request the route sends, if any: none without an API key; otherwise the chosen
   * messages, the normalised model name (default "gpt-4o-mini") and the temperature.
   */
  function Request(body: ChatBody, apiKey: Option<string>, serialise: ChatBody -> string): (r: Option<OpenAiRequest>)
    ensures r.None? <==> !HasKey(apiKey)
    ensures r.Some? ==> r.value.model == NormaliseModel(body.model.GetOr(DefaultModel))
    ensures r.Some? ==> '/' !in r.value.model
    ensures r.Some? ==> r.value.messages == Messages(body, serialise)
    ensures r.Some? ==> r.value.temperature == Temperature(body.temperature)
    ensures r.Some? && body.model.None? ==> r.value.model == DefaultModel
  {
    if !HasKey(apiKey) then None
    else
      var model := NormaliseModel(body.model.GetOr(DefaultModel));
      assert body.model.None? ==> model == DefaultModel by {
        assert '/' !in DefaultModel;
      }
      Some(OpenAiRequest(model, Messages(body, serialise), Temperature(body.temperature)))
  }

  /** The response to the upstream reply: the content (missing content becomes ""), or the error with its status. */
  function Answer(reply: Upstream): (r: Response)
    ensures reply.Completed? ==> r == Content(reply.content.GetOr(""))
    ensures reply.Refused? ==> r == Failure(reply.status, reply.error)
    ensures reply.Threw? ==> r == Failure(500, reply.message)
  {
    match reply
    case Completed(content) => Content(content.GetOr(""))
    case Refused(status, error) => Failure(status, error)
    case Threw(message) => Failure(500, message)
  }

  /**
   * `POST`: a body that is not JSON gives 500 with the parse error; a missing key gives 500
   * before anything is sent; otherwise the upstream reply decides.
   */
  function Post(body: Result<ChatBody>, apiKey: Option<string>, openAi: OpenAi, serialise: ChatBody -> string): (r: Response)
    ensures body.Err? ==> r == Failure(500, body.message)
    ensures body.Ok? && !HasKey(apiKey) ==> r == Failure(500, MissingKeyError)
  {
    match body
    case Err(message) => Failure(500, message)
    case Ok(b) =>
      match Request(b, apiKey, serialise)
      case None => Failure(500, MissingKeyError)
      case Some(req) => Answer(openAi(req))
  }

  /** The upstream API is consulted only with a key, and then with exactly `Request`'s body. */
  lemma {:induction false} PostForwardsRequest(body: ChatBody, apiKey: Option<string>, openAi: OpenAi, serialise: ChatBody -> string)
    requires HasKey(apiKey)
    ensures var req := Request(body, apiKey, serialise);
      req.Some? && Post(Ok(body), apiKey, openAi, serialise) == Answer(openAi(req.value))
  {
  }

  /** A body with only a prompt is sent as a single user message, to the default model, at temperature 0.7. */
  lemma {:induction false} PromptOnlyBody(prompt: string, apiKey: Option<string>, serialise: ChatBody -> string)
    requires prompt != "" && HasKey(apiKey)
    ensures Request(ChatBody(None, Some(prompt), None, Missing), apiKey, serialise)
      == Some(OpenAiRequest(DefaultModel, [ChatMsg(User, prompt)], Number(Finite(0.7))))
  {
  }
}
