/**
 * The chat-completion backend (`POST {base}/v1/chat/completions`), seen from the code that calls it.
 * The network is not modelled: a call is answered by an oracle that receives the call's
 * sequence number within the operation, so different calls may get different replies.
 */
module Backend {
  import opened Wrappers
  import opened Text

  datatype Role = System | User | Assistant

  datatype ChatMsg = ChatMsg(role: Role, content: string)

  /** The JSON body the caller sends: `{ model, messages, temperature }`. */
  datatype ChatRequest = ChatRequest(model: string, messages: seq<ChatMsg>, temperature: real)

  /** The outcome of one request. */
  datatype Reply =
      /** A 2xx status with a JSON body; `choices[0].message.content` when the body has one;
          `elapsedMs` is the wall-clock time the request took. */
    | Answered(content: Option<string>, elapsedMs: nat)
      /** A non-2xx status with the response text. */
    | HttpError(status: nat, body: string)
      /** `fetch` rejected, or the body was not JSON: the thrown error's message. */
    | Thrown(message: string)

  /** The backend: the reply to the `n`-th request of an operation. */
  type Chat = (nat, ChatRequest) -> Reply

  /**
   * The status check after a chat call: a 2xx reply passes through; a non-2xx status throws
   * `prefix` followed by the status, ": " and the response text; a rejected `fetch` throws its own error.
   */
  function ChatOutcome(reply: Reply, prefix: string): (r: Result<Reply>)
    ensures r.Ok? <==> reply.Answered?
    ensures r.Ok? ==> r.value == reply
    ensures reply.HttpError? ==> r.message == prefix + NatToString(reply.status) + ": " + reply.body
    ensures reply.Thrown? ==> r.message == reply.message
  {
    match reply
    case Answered(_, _) => Ok(reply)
    case HttpError(status, body) => Err(prefix + NatToString(status) + ": " + body)
    case Thrown(message) => Err(message)
  }
}
