/**
 * What crosses the network boundary: the JSON request bodies the providers
 * build, the request itself, what the transport may throw, and the parsed
 * reply. The reply is an input of the model: the `as` casts in the providers
 * check nothing, so every member a provider reads is optional.
 */
module Wire {
  import opened Outcomes

  /** A JSON value as JSON.stringify writes it: object members keep insertion order. */
  datatype Json =
    | JNull
    | JBool(b: bool)
    | JNum(n: real)
    | JStr(s: string)
    | JArr(items: seq<Json>)
    | JObj(members: seq<(string, Json)>)

  /** The value of the first member named `key` in a list of object members. */
  function Lookup(members: seq<(string, Json)>, key: string): Option<Json> {
    if members == [] then None
    else if members[0].0 == key then Some(members[0].1)
    else Lookup(members[1..], key)
  }

  /** The value of an object's member named `key`. */
  function Member(j: Json, key: string): Option<Json> {
    if j.JObj? then Lookup(j.members, key) else None
  }

  /** The names of an object's members, in order. */
  function MemberNames(j: Json): seq<string> {
    if !j.JObj? then [] else seq(|j.members|, k requires 0 <= k < |j.members| => j.members[k].0)
  }

  /** The element at `index` of an array. */
  function Item(j: Option<Json>, index: nat): Option<Json> {
    if j.Some? && j.value.JArr? && index < |j.value.items| then Some(j.value.items[index]) else None
  }

  /** A member's value when it is present and `x` is an object. */
  function Get(x: Option<Json>, key: string): Option<Json> {
    if x.Some? then Member(x.value, key) else None
  }

  /** A POST request (every provider uses POST): URL, headers in order, JSON body. */
  datatype Request = Request(url: string, headers: seq<(string, string)>, body: Json)

  /** The `Content-Type` header every provider sends. */
  const JsonContentType: (string, string) := ("Content-Type", "application/json")

  /** `Authorization: Bearer <key>`, as the OpenAI-style providers send it. */
  function Bearer(apiKey: string): (string, string) {
    ("Authorization", "Bearer " + apiKey)
  }

  /** A thrown JavaScript value: an Error object, or anything else (kept as `String(value)`). */
  datatype Thrown = ErrorObject(message: string) | OtherValue(text: string)

  /**
   * The message every provider's catch block rethrows:
   * `error instanceof Error ? error.message : String(error)`.
   */
  function MessageOf(t: Thrown): (m: string)
    ensures t.ErrorObject? ==> m == t.message
    ensures t.OtherValue? ==> m == t.text
  {
    match t
    case ErrorObject(m) => m
    case OtherValue(s) => s
  }

  /** `message?.content` of an OpenAI-style choice. */
  datatype ChatMessage = ChatMessage(content: Option<string>)
  /** One element of `choices`. */
  datatype Choice = Choice(message: Option<ChatMessage>)
  /** One element of a Gemini candidate's `parts`. */
  datatype Part = Part(text: Option<string>)
  /** A Gemini candidate's `content`. */
  datatype Content = Content(parts: Option<seq<Part>>)
  /** One element of Gemini's `candidates`. */
  datatype Candidate = Candidate(content: Option<Content>)
  /** Gemini's `promptFeedback`. */
  datatype PromptFeedback = PromptFeedback(blockReason: Option<string>)

  /** The members of a reply body that some provider reads; anything else is ignored. */
  datatype ResponseBody = ResponseBody(
    choices: Option<seq<Choice>>,
    candidates: Option<seq<Candidate>>,
    promptFeedback: Option<PromptFeedback>)

  /** `response.json`: the getter throws when the text is not JSON; a body may be the literal `null`. */
  datatype Parsed = NotJson(error: Thrown) | JsonNull | JsonObject(body: ResponseBody)

  /** A reply the transport delivered. */
  datatype Reply = Reply(status: nat, text: string, json: Parsed)

  /** `await requestUrl(...)`: it throws (transport failure, an error status) or delivers a reply. */
  datatype HttpOutcome = Rejected(cause: Thrown) | Replied(reply: Reply)

  /** The network, as far as the model sees it: a request in, an outcome out. */
  type Network = Request -> HttpOutcome

  /** `seq?.[0]`. */
  function First<T>(s: Option<seq<T>>): Option<T> {
    if s.Some? && s.value != [] then Some(s.value[0]) else None
  }

  /**
   * `result?.choices?.[0]?.message?.content` of an OpenAI-style reply, before
   * trimming: the content of the first choice, when every step is there.
   */
  function FirstChoiceContent(p: Parsed): (c: Option<string>)
    ensures c.Some? <==>
      p.JsonObject? && p.body.choices.Some? && |p.body.choices.value| > 0
      && p.body.choices.value[0].message.Some?
      && p.body.choices.value[0].message.value.content.Some?
    ensures c.Some? ==> c.value == p.body.choices.value[0].message.value.content.value
  {
    if !p.JsonObject? then None
    else
      var choice := First(p.body.choices);
      if choice.Some? && choice.value.message.Some? then choice.value.message.value.content else None
  }

  /**
   * Reads the conversation back out of an OpenAI-style chat body: the content of
   * its single message when that message is a user turn.
   */
  function SoleUserTurn(body: Json): Option<string> {
    var messages := Member(body, "messages");
    if messages.Some? && messages.value.JArr? && |messages.value.items| == 1 then
      var turn := messages.value.items[0];
      var content := Member(turn, "content");
      if Member(turn, "role") == Some(JStr("user")) && content.Some? && content.value.JStr?
      then Some(content.value.s) else None
    else None
  }
}
