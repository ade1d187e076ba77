/**
  The AI-chef backend with HTTP stripped away: the `/ai-chef` POST handler as
  a total function from the request's `query` and the upstream completion
  call to a status and a JSON body, the `/` liveness route, and the port rule.
 */
module AiChefServer {
  import opened Wrappers

  /** A JavaScript value as produced by JSON parsing (plus `undefined`). */
  datatype JsValue =
    | Undefined
    | Null
    | Bool(b: bool)
    | Number(x: real)
    | Str(s: string)
    | Arr(items: seq<JsValue>)
    | Obj(fields: map<string, JsValue>)

  /** JavaScript truthiness: undefined, null, false, 0 and "" are falsy. */
  predicate Truthy(v: JsValue)
  {
    match v
    case Undefined => false
    case Null => false
    case Bool(b) => b
    case Number(x) => x != 0.0
    case Str(s) => s != ""
    case Arr(_) => true
    case Obj(_) => true
  }

  /** The values on which a property access throws and `?.` short-circuits. */
  predicate Nullish(v: JsValue)
  {
    v.Undefined? || v.Null?
  }

  /** `v.name` for a non-numeric property name on a value that is not nullish. */
  function Member(v: JsValue, name: string): JsValue
    requires !Nullish(v)
  {
    if v.Obj? && name in v.fields then v.fields[name] else Undefined
  }

  /** `v[0]` on a value that is not nullish. */
  function Element0(v: JsValue): JsValue
    requires !Nullish(v)
  {
    match v
    case Arr(items) => if |items| > 0 then items[0] else Undefined
    case Str(s) => if |s| > 0 then Str(s[..1]) else Undefined
    case Obj(fields) => if "0" in fields then fields["0"] else Undefined
    case _ => Undefined
  }

  /** `v?.name` */
  function OptMember(v: JsValue, name: string): JsValue
  {
    if Nullish(v) then Undefined else Member(v, name)
  }

  /** `v?.[0]` */
  function OptElement0(v: JsValue): JsValue
  {
    if Nullish(v) then Undefined else Element0(v)
  }

  /**
    `data.choices?.[0]?.message?.content`, or None when it throws: the first
    access is not optional, so a `null` body throws.
   */
  function FirstContent(data: JsValue): (c: Option<JsValue>)
    ensures c.None? <==> Nullish(data)
    ensures forall v :: HasFirstContent(data, v) ==> c == Some(v)
    ensures ChainBreaks(data) ==> c == Some(Undefined)
  {
    if Nullish(data) then None
    else Some(OptMember(OptMember(OptElement0(Member(data, "choices")), "message"), "content"))
  }

  /**
    The body has a value at `data.choices?.[0]?.message?.content`: it is an
    object with a `choices` that is not null, whose element `[0]` (the first
    item of an array, the key "0" of an object) is an object with a
    `message`, which is an object with a `content`.
   */
  predicate HasContentPath(data: JsValue)
  {
    && data.Obj? && "choices" in data.fields
    && var choices := data.fields["choices"];
    && !Nullish(choices)
    && var first := Element0(choices);
    && first.Obj? && "message" in first.fields
    && var message := first.fields["message"];
    && message.Obj? && "content" in message.fields
  }

  /** The body's value at `choices[0].message.content` is `content`. */
  predicate HasFirstContent(data: JsValue, content: JsValue)
  {
    && HasContentPath(data)
    && Element0(data.fields["choices"]).fields["message"].fields["content"] == content
  }

  /**
    Bodies on which the chain stops short of a content without throwing:
    any body that is not null, not undefined and has no content path. That
    takes in a body that is not an object (an array, a string, a number, a
    boolean), no `choices` or a null one, an empty `choices`, a first choice
    that is not an object or has no `message`, and a `message` that is not
    an object or has no `content`.
   */
  predicate ChainBreaks(data: JsValue)
  {
    !Nullish(data) && !HasContentPath(data)
  }

  /**
    Bodies of other shapes: `[].choices` and `"x".choices` are undefined, and
    an object `choices` is indexed by its key "0".
   */
  lemma OtherBodyShapes()
    ensures FirstContent(Arr([])) == Some(Undefined)
    ensures FirstContent(Str("x")) == Some(Undefined)
    ensures FirstContent(Number(42.0)) == Some(Undefined)
    ensures FirstContent(Obj(map["choices" := Obj(map["0" := Obj(map["message" := Obj(map["content" := Str("x")])])])]))
            == Some(Str("x"))
  {
  }

  const ChatModel: string := "llama-3.1-8b-instant"
  const SystemPrompt: string := "You are an AI Chef. Suggest tasty recipes based on given ingredients."
  const Fallback: string := "⚠️ No suggestion available."
  const QueryRequired: string := "Query is required"
  const UpstreamFailed: string := "Failed to fetch AI response"
  const Liveness: string := "✅ AI Chef Backend is running..."
  const DefaultPort: int := 3000

  datatype ChatMessage = ChatMessage(role: string, content: JsValue)

  /** The completion request: its Authorization header, model and messages. */
  datatype ChatRequest = ChatRequest(authorization: string, model: string, messages: seq<ChatMessage>)

  /**
    What the upstream call yields: `Threw` when fetch rejects or the body is
    not JSON, otherwise the HTTP status and the parsed body.
   */
  datatype Upstream = Threw | Answered(httpStatus: int, data: JsValue)

  datatype Body = Json(value: JsValue) | Text(text: string)

  datatype Response = Response(status: int, body: Body)

  /** `res.status(code).json({ error: message })` */
  function ErrorResponse(code: int, message: string): Response
  {
    Response(code, Json(Obj(map["error" := Str(message)])))
  }

  /** `res.json({ reply })`, with Express's default status 200. */
  function ReplyResponse(reply: JsValue): Response
  {
    Response(200, Json(Obj(map["reply" := reply])))
  }

  /** A reply body: status 200 and a JSON object whose only key is "reply". */
  predicate IsReply(r: Response)
  {
    r.status == 200 && r.body.Json? && r.body.value.Obj? && r.body.value.fields.Keys == {"reply"}
  }

  /** An error body: a JSON object whose only key is "error". */
  predicate IsError(r: Response)
  {
    r.body.Json? && r.body.value.Obj? && r.body.value.fields.Keys == {"error"}
  }

  /**
    The request sent upstream: the bearer key from the environment (a
    missing key interpolates as "undefined"), the fixed model, and exactly
    two messages, the chef persona and then the query itself.
   */
  function Prompt(query: JsValue, apiKey: Option<string>): (req: ChatRequest)
    ensures req.model == ChatModel
    ensures |req.messages| == 2
    ensures req.messages[0] == ChatMessage("system", Str(SystemPrompt))
    ensures req.messages[1] == ChatMessage("user", query)
    ensures apiKey.Some? ==> req.authorization == "Bearer " + apiKey.value
    ensures apiKey.None? ==> req.authorization == "Bearer undefined"
  {
    var key := match apiKey case Some(k) => k case None => "undefined";
    ChatRequest("Bearer " + key, ChatModel,
                [ChatMessage("system", Str(SystemPrompt)), ChatMessage("user", query)])
  }

  /**
    POST /ai-chef. A falsy query is refused with 400 before anything is sent;
    otherwise the prompt goes to `call`, and the first choice's content (or
    the fallback text when that is falsy) is relayed with status 200. A throw
    anywhere in the try block gives 500.
   */
  function HandleAiChef(query: JsValue, apiKey: Option<string>, call: ChatRequest -> Upstream): (r: Response)
    ensures r.status == 400 <==> !Truthy(query)
    ensures r.status in {200, 400, 500}
    ensures r.status == 200 <==> IsReply(r)
    ensures r.status != 200 <==> IsError(r)
    ensures r.status == 500 <==> Truthy(query) && (call(Prompt(query, apiKey)).Threw? || Nullish(call(Prompt(query, apiKey)).data))
    ensures IsReply(r) ==> Truthy(r.body.value.fields["reply"])
    ensures r.status == 400 ==> r == ErrorResponse(400, QueryRequired)
    ensures r.status == 500 ==> r == ErrorResponse(500, UpstreamFailed)
  {
    if !Truthy(query) then ErrorResponse(400, QueryRequired)
    else
      match call(Prompt(query, apiKey))
      case Threw => ErrorResponse(500, UpstreamFailed)
      case Answered(_, data) =>
        match FirstContent(data)
        case None => ErrorResponse(500, UpstreamFailed)
        case Some(content) => ReplyResponse(if Truthy(content) then content else Str(Fallback))
  }

  /** A falsy query gets 400 "Query is required" whatever the upstream would do: it is never called. */
  lemma FalsyQueryNeverCallsUpstream(query: JsValue, apiKey: Option<string>, call1: ChatRequest -> Upstream, call2: ChatRequest -> Upstream)
    requires !Truthy(query)
    ensures HandleAiChef(query, apiKey, call1) == HandleAiChef(query, apiKey, call2)
    ensures HandleAiChef(query, apiKey, call1) == ErrorResponse(400, QueryRequired)
  {
  }

  /** A non-empty string as the first choice's content is relayed as the reply. */
  lemma ContentIsRelayed(query: JsValue, apiKey: Option<string>, call: ChatRequest -> Upstream, text: string)
    requires Truthy(query) && text != ""
    requires call(Prompt(query, apiKey)).Answered? && HasFirstContent(call(Prompt(query, apiKey)).data, Str(text))
    ensures HandleAiChef(query, apiKey, call) == ReplyResponse(Str(text))
  {
  }

  /**
    For any upstream status, the reply is the first choice's content when
    that is truthy, and the fallback text otherwise (null, false, 0, "").
   */
  lemma ReplyIsContentOrFallback(query: JsValue, apiKey: Option<string>, call: ChatRequest -> Upstream, content: JsValue)
    requires Truthy(query) && call(Prompt(query, apiKey)).Answered?
    requires HasFirstContent(call(Prompt(query, apiKey)).data, content)
    ensures HandleAiChef(query, apiKey, call) == ReplyResponse(if Truthy(content) then content else Str(Fallback))
  {
  }

  /**
    With a body that is not an object, `choices` absent, null or empty, a
    first choice without a message, or a message without content, the reply
    is the fallback text with status 200, not an error, whatever the
    upstream status.
   */
  lemma MissingContentFallsBack(query: JsValue, apiKey: Option<string>, call: ChatRequest -> Upstream)
    requires Truthy(query) && call(Prompt(query, apiKey)).Answered?
    requires ChainBreaks(call(Prompt(query, apiKey)).data)
    ensures HandleAiChef(query, apiKey, call) == ReplyResponse(Str(Fallback))
  {
  }

  /** A body that parses to `null` makes `data.choices` throw, which answers 500. */
  lemma NullBodyFails(query: JsValue, apiKey: Option<string>, call: ChatRequest -> Upstream, httpStatus: int)
    requires Truthy(query) && call(Prompt(query, apiKey)) == Answered(httpStatus, Null)
    ensures HandleAiChef(query, apiKey, call) == ErrorResponse(500, UpstreamFailed)
  {
  }

  /** The upstream HTTP status is never looked at: only the parsed body decides. */
  lemma UpstreamStatusIgnored(query: JsValue, apiKey: Option<string>, call1: ChatRequest -> Upstream, call2: ChatRequest -> Upstream)
    requires call1(Prompt(query, apiKey)).Answered? && call2(Prompt(query, apiKey)).Answered?
    requires call1(Prompt(query, apiKey)).data == call2(Prompt(query, apiKey)).data
    ensures HandleAiChef(query, apiKey, call1) == HandleAiChef(query, apiKey, call2)
  {
  }

  /** An upstream failure answers 500, and that answer differs from every reply, the fallback included. */
  lemma FailureDistinctFromFallback(query: JsValue, apiKey: Option<string>, call: ChatRequest -> Upstream)
    requires Truthy(query) && call(Prompt(query, apiKey)).Threw?
    ensures HandleAiChef(query, apiKey, call) == ErrorResponse(500, UpstreamFailed)
    ensures forall reply :: HandleAiChef(query, apiKey, call) != ReplyResponse(reply)
  {
  }

  /** GET /: the same liveness text for every request. */
  function HealthCheck(request: JsValue): (r: Response)
    ensures r.status == 200 && r.body == Text(Liveness)
  {
    Response(200, Text(Liveness))
  }

  /** The port the server listens on. */
  datatype Port = EnvPort(text: string) | NumericPort(n: int)

  /** `process.env.PORT || 3000`: the environment's text when set and non-empty, else 3000. */
  function ListenPort(env: Option<string>): (p: Port)
    ensures p == NumericPort(DefaultPort) <==> env.None? || env.value == ""
    ensures p.EnvPort? ==> env == Some(p.text) && p.text != ""
    ensures env.Some? && env.value != "" ==> p == EnvPort(env.value)
  {
    match env
    case Some(text) => if text != "" then EnvPort(text) else NumericPort(DefaultPort)
    case None => NumericPort(DefaultPort)
  }
}
