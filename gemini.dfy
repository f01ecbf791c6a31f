/**
 * The Google provider (`Gemini.call`): the key travels as a query parameter,
 * the reply's first candidate's first part is the answer, and a reply without
 * text is told apart as blocked by safety filters or malformed.
 */
module Gemini {
  import opened Outcomes
  import opened JsString
  import opened Wire

  const ModelsBase := "https://generativelanguage.googleapis.com/v1beta/models/"
  const Action := ":generateContent?key="
  const BlockedPrefix := "Blocked by safety filters: "
  const Malformed := "Empty response or unexpected format from Gemini"
  /** The TypeError message V8 gives for `null.candidates`. */
  const NullRead := "Cannot read properties of null (reading 'candidates')"

  /** `.../models/<model>:generateContent?key=<apiKey>`. */
  function Url(model: string, apiKey: string): string {
    ModelsBase + model + Action + apiKey
  }

  /** `{contents: [{parts: [{text: message}]}], generationConfig: {temperature}}`. */
  function Body(message: string, temperature: real): Json {
    JObj([
      ("contents", JArr([JObj([("parts", JArr([JObj([("text", JStr(message))])]))])])),
      ("generationConfig", JObj([("temperature", JNum(temperature))]))])
  }

  /** Reads the prompt back out of a Gemini body: `contents[0].parts[0].text`. */
  function SentText(body: Json): Option<string> {
    var text := Get(Item(Get(Item(Member(body, "contents"), 0), "parts"), 0), "text");
    if text.Some? && text.value.JStr? then Some(text.value.s) else None
  }

  /**
   * The request `call` sends: the model in the URL path and the key as the
   * `key` query parameter (no Authorization header), and a body carrying the
   * message as the one part of the one content entry and the temperature
   * under `generationConfig`.
   */
  function RequestFor(apiKey: string, message: string, model: string, temperature: real): (r: Request)
    ensures |r.url| == |ModelsBase| + |model| + |Action| + |apiKey|
    ensures r.url[..|ModelsBase|] == ModelsBase
    ensures r.url[|ModelsBase|..|ModelsBase| + |model|] == model
    ensures r.url[|r.url| - |apiKey| - |Action|..] == Action + apiKey
    ensures r.headers == [JsonContentType]
    ensures MemberNames(r.body) == ["contents", "generationConfig"]
    ensures SentText(r.body) == Some(message)
    ensures Get(Member(r.body, "generationConfig"), "temperature") == Some(JNum(temperature))
  {
    var r := Request(Url(model, apiKey), [JsonContentType], Body(message, temperature));
    assert r.url == ModelsBase + model + (Action + apiKey);
    assert r.url[..|ModelsBase| + |model|] == ModelsBase + model;
    var members := r.body.members;
    assert Lookup(members, "generationConfig") == Lookup(members[1..], "generationConfig");
    r
  }

  /** `result.candidates?.[0]?.content?.parts?.[0]?.text`, before trimming. */
  function FirstPartText(b: ResponseBody): (t: Option<string>)
    ensures t.Some? <==>
      b.candidates.Some? && |b.candidates.value| > 0
      && b.candidates.value[0].content.Some?
      && b.candidates.value[0].content.value.parts.Some?
      && |b.candidates.value[0].content.value.parts.value| > 0
      && b.candidates.value[0].content.value.parts.value[0].text.Some?
    ensures t.Some? ==> t.value == b.candidates.value[0].content.value.parts.value[0].text.value
  {
    var candidate := First(b.candidates);
    if candidate.Some? && candidate.value.content.Some? then
      var part := First(candidate.value.content.value.parts);
      if part.Some? then part.value.text else None
    else None
  }

  /** `result.promptFeedback?.blockReason`. */
  function BlockReason(b: ResponseBody): (r: Option<string>)
    ensures r.Some? <==> b.promptFeedback.Some? && b.promptFeedback.value.blockReason.Some?
    ensures r.Some? ==> r.value == b.promptFeedback.value.blockReason.value
  {
    if b.promptFeedback.Some? then b.promptFeedback.value.blockReason else None
  }

  /**
   * What `call` makes of the transport's outcome. Only the first candidate's
   * first part is read; its trimmed text is the answer when not empty. With no
   * text, a non-empty block reason yields the safety-filter error and anything
   * else the malformed-reply error. A `null` body fails reading `candidates`;
   * anything thrown is rethrown with its message kept.
   */
  function Interpret(o: HttpOutcome): (r: Result<string>)
    ensures r.Ok? <==>
      o.Replied? && o.reply.json.JsonObject? && FirstPartText(o.reply.json.body).Some?
      && !AllSpace(FirstPartText(o.reply.json.body).value)
    ensures r.Ok? ==> r.value == Trim(FirstPartText(o.reply.json.body).value)
    ensures r.Ok? ==> r.value != [] && IsTrimmed(r.value)
    ensures o.Rejected? ==> r == Err(MessageOf(o.cause))
    ensures o.Replied? && o.reply.json.NotJson? ==> r == Err(MessageOf(o.reply.json.error))
    ensures o.Replied? && o.reply.json.JsonNull? ==> r == Err(NullRead)
    ensures o.Replied? && o.reply.json.JsonObject? && r.Err? ==>
      var reason := BlockReason(o.reply.json.body);
      r.message == if reason.Some? && reason.value != "" then BlockedPrefix + reason.value else Malformed
  {
    match o
    case Rejected(cause) => Err(MessageOf(cause))
    case Replied(reply) =>
      match reply.json
      case NotJson(e) => Err(MessageOf(e))
      case JsonNull => Err(NullRead)
      case JsonObject(b) =>
        var text := FirstPartText(b);
        var trimmed := if text.Some? then Trim(text.value) else "";
        if trimmed != "" then Ok(trimmed)
        else
          var reason := BlockReason(b);
          if reason.Some? && reason.value != "" then Err(BlockedPrefix + reason.value)
          else Err(Malformed)
  }

  /** The two no-text errors can never be confused: no block reason makes the safety message equal the malformed one. */
  lemma BlockedIsNotMalformed(reason: string)
    ensures BlockedPrefix + reason != Malformed
  {
    MalformedStartsWithE();
    var blocked := BlockedPrefix + reason;
    assert blocked[0] == BlockedPrefix[0] == 'B';
  }

  lemma MalformedStartsWithE()
    ensures |Malformed| > 0 && Malformed[0] == 'E'
  {
    var head, tail := "Empty response ", "or unexpected format from Gemini";
    assert Malformed == head + tail;
    assert (head + tail)[0] == head[0];
  }

  /**
   * When the first part has text, the prompt feedback plays no part: the
   * answer is the same whatever block reason the reply carries.
   */
  lemma TextWinsOverBlockReason(status: nat, raw: string, b: ResponseBody, feedback: Option<PromptFeedback>)
    requires FirstPartText(b).Some? && !AllSpace(FirstPartText(b).value)
    ensures Interpret(Replied(Reply(status, raw, JsonObject(b.(promptFeedback := feedback)))))
         == Interpret(Replied(Reply(status, raw, JsonObject(b))))
         == Ok(Trim(FirstPartText(b).value))
  {
    assert FirstPartText(b.(promptFeedback := feedback)) == FirstPartText(b);
  }
}
