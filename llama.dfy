/**
 * The local, OpenAI-compatible provider (`Llama`): the same request shape as
 * the OpenAI provider plus `stream: false`, sent to a configurable base URL.
 */
module Llama {
  import opened Outcomes
  import opened JsString
  import opened Wire

  const DefaultApiKey := "ollama"
  const DefaultBaseUrl := "http://127.0.0.1:11434"
  const CompletionsPath := "/v1/chat/completions"
  const NoContentPrefix := "No response content. Status: "

  /** The two fields a `Llama` object stores. */
  datatype Credentials = Credentials(apiKey: string, baseUrl: string)

  /**
   * The constructor: a parameter left `undefined` takes its default, anything
   * else (the empty string included) is stored as given.
   */
  function New(apiKey: Option<string>, baseUrl: Option<string>): (c: Credentials)
    ensures apiKey.None? ==> c.apiKey == DefaultApiKey
    ensures apiKey.Some? ==> c.apiKey == apiKey.value
    ensures baseUrl.None? ==> c.baseUrl == DefaultBaseUrl
    ensures baseUrl.Some? ==> c.baseUrl == baseUrl.value
  {
    Credentials(apiKey.GetOr(DefaultApiKey), baseUrl.GetOr(DefaultBaseUrl))
  }

  /** `{model, messages: [{role: "user", content: message}], temperature, stream: false}`. */
  function Body(message: string, model: string, temperature: real): Json {
    JObj([
      ("model", JStr(model)),
      ("messages", JArr([JObj([("role", JStr("user")), ("content", JStr(message))])])),
      ("temperature", JNum(temperature)),
      ("stream", JBool(false))])
  }

  /**
   * The request `call` sends: the base URL followed by the completions path,
   * the key as a bearer token, and the body with streaming switched off.
   */
  function RequestFor(c: Credentials, message: string, model: string, temperature: real): (r: Request)
    ensures r.url == c.baseUrl + CompletionsPath
    ensures r.headers == [Bearer(c.apiKey), JsonContentType]
    ensures MemberNames(r.body) == ["model", "messages", "temperature", "stream"]
    ensures Member(r.body, "model") == Some(JStr(model))
    ensures Member(r.body, "temperature") == Some(JNum(temperature))
    ensures Member(r.body, "stream") == Some(JBool(false))
    ensures SoleUserTurn(r.body) == Some(message)
  {
    var r := Request(c.baseUrl + CompletionsPath, [Bearer(c.apiKey), JsonContentType], Body(message, model, temperature));
    var members := r.body.members;
    assert Lookup(members, "temperature") == Lookup(members[1..], "temperature") == Lookup(members[2..], "temperature");
    assert Lookup(members, "stream") == Lookup(members[1..], "stream") == Lookup(members[2..], "stream")
      == Lookup(members[3..], "stream");
    var turn := JObj([("role", JStr("user")), ("content", JStr(message))]);
    assert Lookup(turn.members, "content") == Lookup(turn.members[1..], "content");
    assert Lookup(members, "messages") == Lookup(members[1..], "messages") == Some(JArr([turn]));
    assert Member(turn, "role") == Some(JStr("user"));
    assert Member(turn, "content") == Some(JStr(message));
    r
  }

  /**
   * What `call` makes of the transport's outcome: the first choice's content,
   * trimmed and never empty; a reply without usable content fails naming the
   * HTTP status; anything thrown is rethrown with its message kept.
   */
  function Interpret(o: HttpOutcome): (r: Result<string>)
    ensures r.Ok? <==>
      o.Replied? && !o.reply.json.NotJson? && FirstChoiceContent(o.reply.json).Some?
      && !AllSpace(FirstChoiceContent(o.reply.json).value)
    ensures r.Ok? ==> r.value == Trim(FirstChoiceContent(o.reply.json).value)
    ensures r.Ok? ==> r.value != [] && IsTrimmed(r.value)
    ensures o.Rejected? ==> r == Err(MessageOf(o.cause))
    ensures o.Replied? && o.reply.json.NotJson? ==> r == Err(MessageOf(o.reply.json.error))
    ensures o.Replied? && !o.reply.json.NotJson? && r.Err? ==>
      r.message == NoContentPrefix + Decimal(o.reply.status)
  {
    match o
    case Rejected(cause) => Err(MessageOf(cause))
    case Replied(reply) =>
      if reply.json.NotJson? then Err(MessageOf(reply.json.error))
      else
        var content := FirstChoiceContent(reply.json);
        var trimmed := if content.Some? then Trim(content.value) else "";
        if trimmed == "" then Err(NoContentPrefix + Decimal(reply.status)) else Ok(trimmed)
  }
}
