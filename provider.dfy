/**
 * The `provider` interface (`call(message, model, temperature)`) as a closed
 * set of the three backends, each holding the credentials its constructor
 * stored, with `call` dispatched by variant.
 */
module Provider {
  import opened Outcomes
  import opened JsString
  import opened Wire
  import ChatGpt
  import Gemini
  import Llama

  datatype Provider =
    | ChatGpt(apiKey: string)
    | Gemini(apiKey: string)
    | Llama(credentials: Llama.Credentials)

  /** The single request a provider's `call` sends. */
  function RequestFor(p: Provider, message: string, model: string, temperature: real): Request {
    match p
    case ChatGpt(key) => ChatGpt.RequestFor(key, message, model, temperature)
    case Gemini(key) => Gemini.RequestFor(key, message, model, temperature)
    case Llama(c) => Llama.RequestFor(c, message, model, temperature)
  }

  /** The message a request carries, read back the way its backend expects it. */
  function SentMessage(p: Provider, r: Request): Option<string> {
    if p.Gemini? then Gemini.SentText(r.body) else SoleUserTurn(r.body)
  }

  /** What a provider's `call` makes of the transport's outcome. */
  function Interpret(p: Provider, o: HttpOutcome): Result<string> {
    match p
    case ChatGpt(_) => ChatGpt.Interpret(o)
    case Gemini(_) => Gemini.Interpret(o)
    case Llama(_) => Llama.Interpret(o)
  }

  /**
   * `call`: exactly one request, carrying the message unchanged, and a result
   * that is either an error or a trimmed, non-empty text. Every backend
   * honours the same success contract.
   */
  function Call(p: Provider, message: string, model: string, temperature: real, net: Network): (r: Result<string>)
    ensures SentMessage(p, RequestFor(p, message, model, temperature)) == Some(message)
    ensures r.Ok? ==> r.value != [] && IsTrimmed(r.value)
  {
    Interpret(p, net(RequestFor(p, message, model, temperature)))
  }

  /**
   * The local backend's body is the OpenAI backend's body with one member
   * appended, `stream: false`; nothing else differs.
   */
  lemma LlamaBodyExtendsChatGpt(message: string, model: string, temperature: real)
    ensures Llama.Body(message, model, temperature).members
         == ChatGpt.Body(message, model, temperature).members + [("stream", JBool(false))]
  {
  }

  /**
   * The two OpenAI-style backends read a reply identically: on the same
   * outcome either both succeed with the same text or both fail, and they
   * differ only in the message of a reply without content.
   */
  lemma OpenAIStyleRepliesAgree(o: HttpOutcome)
    ensures ChatGpt.Interpret(o).Ok? <==> Llama.Interpret(o).Ok?
    ensures ChatGpt.Interpret(o).Ok? ==> ChatGpt.Interpret(o) == Llama.Interpret(o)
    ensures (o.Rejected? || o.reply.json.NotJson?) ==> ChatGpt.Interpret(o) == Llama.Interpret(o)
  {
  }

  /**
   * A reply with an empty `choices` array is an error for both OpenAI-style
   * backends, never an empty success: the OpenAI backend reports the raw
   * reply text, the local one the status.
   */
  lemma EmptyChoicesFail(status: nat, raw: string)
    ensures var o := Replied(Reply(status, raw, JsonObject(ResponseBody(Some([]), None, None))));
      && ChatGpt.Interpret(o) == Err(raw)
      && Llama.Interpret(o) == Err(Llama.NoContentPrefix + Decimal(status))
  {
  }

  /** A Google reply with no candidates and block reason "SAFETY" fails with the safety message naming it. */
  lemma SafetyBlockIsNamed(status: nat, raw: string)
    ensures var o := Replied(Reply(status, raw, JsonObject(ResponseBody(None, None, Some(PromptFeedback(Some("SAFETY")))))));
      Gemini.Interpret(o) == Err("Blocked by safety filters: SAFETY")
  {
  }
}
