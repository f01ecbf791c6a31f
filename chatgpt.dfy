/**
 * The OpenAI provider (`ChatGPT.call`): a bearer-authenticated POST to the
 * chat-completions endpoint, then the first choice's content, trimmed, with
 * an empty result turned into an error.
 */
module ChatGpt {
  import opened Outcomes
  import opened JsString
  import opened Wire

  const Endpoint := "https://api.openai.com/v1/chat/completions"

  /** `{model, messages: [{role: "user", content: message}], temperature}`. */
  function Body(message: string, model: string, temperature: real): Json {
    JObj([
      ("model", JStr(model)),
      ("messages", JArr([JObj([("role", JStr("user")), ("content", JStr(message))])])),
      ("temperature", JNum(temperature))])
  }

  /**
   * The request `call` sends: the fixed endpoint, the key as a bearer token,
   * and a body carrying the model, the message as the one user turn, and the
   * temperature, each unchanged.
   */
  function RequestFor(apiKey: string, message: string, model: string, temperature: real): (r: Request)
    ensures r.url == Endpoint
    ensures r.headers == [Bearer(apiKey), JsonContentType]
    ensures MemberNames(r.body) == ["model", "messages", "temperature"]
    ensures Member(r.body, "model") == Some(JStr(model))
    ensures Member(r.body, "temperature") == Some(JNum(temperature))
    ensures SoleUserTurn(r.body) == Some(message)
  {
    var r := Request(Endpoint, [Bearer(apiKey), JsonContentType], Body(message, model, temperature));
    var members := r.body.members;
    assert Lookup(members, "temperature") == Lookup(members[1..], "temperature") == Lookup(members[2..], "temperature");
    var turn := JObj([("role", JStr("user")), ("content", JStr(message))]);
    assert Lookup(turn.members, "content") == Lookup(turn.members[1..], "content");
    assert Lookup(members, "messages") == Lookup(members[1..], "messages") == Some(JArr([turn]));
    assert Member(turn, "role") == Some(JStr("user"));
    assert Member(turn, "content") == Some(JStr(message));
    r
  }

  /**
   * What `call` makes of the transport's outcome. A success is the first
   * choice's content, trimmed, and never empty; a reply without usable
   * content fails with the raw response text as its message; anything thrown
   * on the way is rethrown with its message kept.
   */
  function Interpret(o: HttpOutcome): (r: Result<string>)
    ensures r.Ok? <==>
      o.Replied? && !o.reply.json.NotJson? && FirstChoiceContent(o.reply.json).Some?
      && !AllSpace(FirstChoiceContent(o.reply.json).value)
    ensures r.Ok? ==> r.value == Trim(FirstChoiceContent(o.reply.json).value)
    ensures r.Ok? ==> r.value != [] && IsTrimmed(r.value)
    ensures o.Rejected? ==> r == Err(MessageOf(o.cause))
    ensures o.Replied? && o.reply.json.NotJson? ==> r == Err(MessageOf(o.reply.json.error))
    ensures o.Replied? && !o.reply.json.NotJson? && r.Err? ==> r.message == o.reply.text
  {
    match o
    case Rejected(cause) => Err(MessageOf(cause))
    case Replied(reply) =>
      if reply.json.NotJson? then Err(MessageOf(reply.json.error))
      else
        var content := FirstChoiceContent(reply.json);
        var improved := if content.Some? then Trim(content.value) else "";
        if improved == "" then Err(reply.text) else Ok(improved)
  }
}
