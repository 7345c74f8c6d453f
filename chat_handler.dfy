/**
 * The request decision of the serverless chat endpoint (`handler` in api/chat.js):
 * method dispatch, message validation, API-key resolution with its source tag,
 * the choice of referer, the one upstream chat-completion request, and the mapping
 * of what the upstream did to the reply.
 *
 * The handler is a function of a request snapshot, the environment values it reads
 * and what the upstream call did. Its result is the HTTP response, the upstream
 * request it issues (if any) and the key-source tag it logs (if it gets that far).
 */
module ChatHandler {
  import opened Options
  import opened JsText
  import opened JsValues

  const UpstreamUrl := "https://openrouter.ai/api/v1/chat/completions"
  const DefaultReferer := "https://chatbot-integrated-website.vercel.app"
  const AppTitle := "Apprentice Chatbot"
  const ModelName := "google/gemma-2-9b-it:free"
  const SystemPrompt := "You are Apprentice, a helpful, concise AI assistant."
  const MaxTokens := 180

  const MethodNotAllowed := "Method not allowed"
  const MissingMessage := "Missing message"
  const NoKeyReply := "Server has no API key. For a quick test, send it in header 'x-openrouter-key' (temporary)."
  const TroubleReply := "I'm having trouble connecting to the AI right now. Please try again in a moment. \U{1F504}"
  const FallbackReply := "I couldn't generate a response. Please try again."
  const OopsReply := "Oops, something went wrong on the server. Please try again. \U{1F605}"

  const CorsHeaders: seq<(string, string)> := [
    ("Access-Control-Allow-Origin", "*"),
    ("Access-Control-Allow-Methods", "POST, OPTIONS"),
    ("Access-Control-Allow-Headers", "Content-Type, x-openrouter-key")
  ]

  /** `req.body`: the parsed body, or a body whose parsing throws when it is read. */
  datatype BodyInput = Parsed(value: JsValue) | Unreadable

  /** The request snapshot: its HTTP method (`verb`), its headers with names lower-cased as Node delivers them, and its body. */
  datatype Request = Request(verb: string, headers: map<string, string>, body: BodyInput)

  /** The environment variables the handler reads; None is an unset variable. */
  datatype Env = Env(
    openRouterApiKey: Option<string>,       // OPENROUTER_API_KEY
    publicOpenRouterApiKey: Option<string>, // NEXT_PUBLIC_OPENROUTER_API_KEY
    siteUrl: Option<string>                 // SITE_URL
  )

  /**
   * What the upstream call does if it is made: `fetch` or `response.text()`
   * throws, or a response arrives with its `ok` flag and the result of
   * `JSON.parse` on its text (None when the text is not JSON).
   */
  datatype Upstream = Threw | Answered(ok: bool, data: Option<JsValue>)

  datatype ChatMessage = ChatMessage(role: string, content: string)

  /** The POST request sent to the chat-completion endpoint: its headers and JSON payload. */
  datatype UpstreamRequest = UpstreamRequest(
    url: string,
    authorization: string,
    contentType: string,
    referer: string,
    title: string,
    model: string,
    messages: seq<ChatMessage>,
    maxTokens: nat
  )

  datatype Body = NoBody | ErrorBody(error: string) | ReplyBody(reply: string)

  datatype Response = Response(status: nat, headers: seq<(string, string)>, body: Body)

  /** Where the API key came from, as logged. */
  datatype KeySource = EnvPrimary | EnvPublic | HeaderKey | BodyKey | NoKey {
    function Tag(): string {
      match this
      case EnvPrimary => "env:OPENROUTER_API_KEY"
      case EnvPublic => "env:NEXT_PUBLIC_OPENROUTER_API_KEY"
      case HeaderKey => "header:x-openrouter-key"
      case BodyKey => "body.apiKey"
      case NoKey => "none"
    }
  }

  /** The key sources in priority order, parallel to `KeyCandidates`. */
  const Sources: seq<KeySource> := [EnvPrimary, EnvPublic, HeaderKey, BodyKey]

  datatype Outcome = Outcome(
    response: Response,
    upstreamRequest: Option<UpstreamRequest>,
    keySourceLog: Option<KeySource>
  )

  /** An environment variable or header as a JavaScript value: a string or `undefined`. */
  function StringOrUndefined(o: Option<string>): (v: JsValue)
    ensures v.Str? || v.Undefined?
    ensures IsTruthy(v) <==> o.Some? && o.value != []
  {
    match o
    case Some(s) => Str(s)
    case None => Undefined
  }

  function HeaderValue(headers: map<string, string>, name: string): Option<string> {
    if name in headers then Some(headers[name]) else None
  }

  /** `(req.body || {})`, from which `message` and `apiKey` are destructured. */
  function BodyFields(body: JsValue): JsValue {
    if IsTruthy(body) then body else Obj(map[])
  }

  /**
   * The message check: `!message || typeof message !== "string" || !message.trim()`
   * rejects (None); otherwise the message is kept as sent, untrimmed.
   */
  function ValidMessage(message: JsValue): (r: Option<string>)
    ensures r.Some? <==> message.Str? && !AllWhitespace(message.s)
    ensures r.Some? ==> r.value == message.s && Trim(r.value) != []
  {
    if !IsTruthy(message) || !message.Str? || Trim(message.s) == [] then None
    else Some(message.s)
  }

  /** The four key candidates in priority order: both environment variables, the header, the body field. */
  function KeyCandidates(env: Env, headers: map<string, string>, bodyKey: JsValue): (cs: seq<JsValue>)
    ensures |cs| == |Sources| == 4
  {
    [ StringOrUndefined(env.openRouterApiKey),
      StringOrUndefined(env.publicOpenRouterApiKey),
      StringOrUndefined(HeaderValue(headers, "x-openrouter-key")),
      bodyKey ]
  }

  /** `cs[0] || cs[1] || … || cs[n-1]`, grouped to the left as JavaScript evaluates it. */
  function OrChain(cs: seq<JsValue>): JsValue
    requires |cs| >= 1
  {
    if |cs| == 1 then cs[0] else Or(OrChain(cs[..|cs| - 1]), cs[|cs| - 1])
  }

  /** The reassignment `apiKey = typeof apiKey === "string" ? apiKey.trim() : apiKey`. */
  function TrimIfString(v: JsValue): (r: JsValue)
    ensures v.Str? ==> r == Str(Trim(v.s))
    ensures !v.Str? ==> r == v
  {
    if v.Str? then Str(Trim(v.s)) else v
  }

  /** The API key the handler uses: the `||` chain over the candidates, then trimmed. */
  function ResolveKey(cs: seq<JsValue>): JsValue
    requires |cs| >= 1
  {
    TrimIfString(OrChain(cs))
  }

  /** The nested conditional that names the key's source, over the same candidates. */
  function KeySourceOf(cs: seq<JsValue>, key: JsValue): KeySource
    requires |cs| == 4
  {
    if !IsTruthy(key) then NoKey
    else if IsTruthy(cs[0]) then EnvPrimary
    else if IsTruthy(cs[1]) then EnvPublic
    else if IsTruthy(cs[2]) then HeaderKey
    else if IsTruthy(cs[3]) then BodyKey
    else NoKey
  }

  /** The `HTTP-Referer` value: the `origin` header, else SITE_URL, else the deployment URL. */
  function Referer(origin: Option<string>, siteUrl: Option<string>): (r: string)
    ensures r != []
    ensures origin.GetOr("") != [] ==> r == origin.value
    ensures origin.GetOr("") == [] && siteUrl.GetOr("") != [] ==> r == siteUrl.value
    ensures origin.GetOr("") == [] && siteUrl.GetOr("") == [] ==> r == DefaultReferer
  {
    var fromOrigin := StringOrUndefined(origin);
    var chosen := Or(Or(fromOrigin, StringOrUndefined(siteUrl)), Str(DefaultReferer));
    chosen.s
  }

  /** The `Authorization` header `Bearer ${apiKey}`; None where converting the key throws. */
  function Authorization(key: JsValue): (r: Option<string>)
    ensures key.Str? ==> r == Some("Bearer " + key.s)
    ensures r.Some? ==> |r.value| >= 7 && r.value[..7] == "Bearer "
  {
    match ToJsString(key)
    case Some(t) => Some("Bearer " + t)
    case None => None
  }

  /** The token an `Authorization` header carries after its "Bearer " scheme prefix. */
  function BearerToken(authorization: string): Option<string> {
    if |authorization| >= 7 && authorization[..7] == "Bearer " then Some(authorization[7..])
    else None
  }

  function BuildRequest(authorization: string, referer: string, message: string): UpstreamRequest {
    UpstreamRequest(
      UpstreamUrl, authorization, "application/json", referer, AppTitle, ModelName,
      [ChatMessage("system", SystemPrompt), ChatMessage("user", message)],
      MaxTokens)
  }

  /** The value of an expression that may throw. */
  datatype Eval = Value(v: JsValue) | TypeError

  /** `data?.choices?.[0]?.message?.content`. */
  function ContentOf(data: JsValue): JsValue {
    Get(Get(Get(Get(data, "choices"), "0"), "message"), "content")
  }

  /** `content?.trim()`: nothing to call on `null`/`undefined`, and `trim` is only a function on strings. */
  function TrimCall(content: JsValue): (r: Eval)
    ensures r.Value? ==> r.v == Undefined || r.v.Str?
    ensures r.TypeError? <==> !IsNullish(content) && !content.Str?
  {
    if IsNullish(content) then Value(Undefined)
    else if content.Str? then Value(Str(Trim(content.s)))
    else TypeError
  }

  /**
   * The reply to a successful upstream response,
   * `data?.choices?.[0]?.message?.content?.trim() || fallback`, where `data`
   * stays `null` for a body that is not JSON; None where the expression throws.
   */
  function ReplyFromData(data: Option<JsValue>): (r: Option<string>)
    ensures r.Some? ==> r.value != []
  {
    match TrimCall(ContentOf(data.GetOr(Null)))
    case TypeError => None
    case Value(v) => Some(if IsTruthy(v) then v.s else FallbackReply)
  }

  /** The reply the handler sends once the upstream call has been issued. */
  function UpstreamReply(up: Upstream): (reply: string)
    ensures reply != []
    ensures up.Threw? ==> reply == OopsReply
  {
    match up
    case Threw => OopsReply
    case Answered(ok, data) =>
      if !ok then TroubleReply
      else
        match ReplyFromData(data)
        case Some(text) => text
        case None => OopsReply
  }

  function Reply(text: string): Response {
    Response(200, [], ReplyBody(text))
  }

  /** The handler. */
  function Handle(req: Request, env: Env, up: Upstream): (out: Outcome)
    ensures out.response.status in {200, 400, 405}
    ensures out.response.status == 200 && req.verb != "OPTIONS" ==> out.response.body.ReplyBody?
    ensures out.upstreamRequest.Some? ==> req.verb == "POST" && out.keySourceLog.Some?
  {
    if req.verb == "OPTIONS" then
      Outcome(Response(200, CorsHeaders, NoBody), None, None)
    else if req.verb != "POST" then
      Outcome(Response(405, [], ErrorBody(MethodNotAllowed)), None, None)
    else
      match req.body
      case Unreadable => Outcome(Reply(OopsReply), None, None)
      case Parsed(body) =>
        var fields := BodyFields(body);
        match ValidMessage(Get(fields, "message"))
        case None => Outcome(Response(400, [], ErrorBody(MissingMessage)), None, None)
        case Some(message) =>
          var cs := KeyCandidates(env, req.headers, Get(fields, "apiKey"));
          var key := ResolveKey(cs);
          var source := KeySourceOf(cs, key);
          if !IsTruthy(key) then
            Outcome(Reply(NoKeyReply), None, Some(source))
          else
            var referer := Referer(HeaderValue(req.headers, "origin"), env.siteUrl);
            match Authorization(key)
            case None => Outcome(Reply(OopsReply), None, Some(source))
            case Some(authorization) =>
              Outcome(Reply(UpstreamReply(up)), Some(BuildRequest(authorization, referer, message)), Some(source))
  }
}
