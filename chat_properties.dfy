/**
 * Properties of the chat handler: how the API key and its logged source are chosen,
 * what each branch of the handler answers, what is sent upstream, and how the
 * upstream result becomes the reply.
 */
module ChatProperties {
  import opened Options
  import opened JsText
  import opened JsValues
  import opened ChatHandler

  // ---------------------------------------------------------------------------
  // Key resolution

  /** `cs[i]` is the first truthy candidate. */
  predicate SelectedAt(cs: seq<JsValue>, i: int) {
    0 <= i < |cs| && IsTruthy(cs[i]) && forall j :: 0 <= j < i ==> !IsTruthy(cs[j])
  }

  predicate NoneTruthy(cs: seq<JsValue>) {
    forall j :: 0 <= j < |cs| ==> !IsTruthy(cs[j])
  }

  /** The `||` chain yields the first truthy candidate, or the last candidate when none is truthy. */
  lemma {:induction false} OrChainFirstTruthy(cs: seq<JsValue>)
    requires |cs| >= 1
    ensures forall i :: SelectedAt(cs, i) ==> OrChain(cs) == cs[i]
    ensures NoneTruthy(cs) ==> OrChain(cs) == cs[|cs| - 1]
  {
    if |cs| > 1 {
      var init := cs[..|cs| - 1];
      OrChainFirstTruthy(init);
      forall i | SelectedAt(cs, i) ensures OrChain(cs) == cs[i] {
        if i < |cs| - 1 {
          assert SelectedAt(init, i);
        } else {
          assert NoneTruthy(init);
        }
      }
      if NoneTruthy(cs) {
        assert NoneTruthy(init);
      }
    }
  }

  /**
   * The key is the first truthy candidate, trimmed afterwards; the logged source is
   * "none" exactly when that trimmed key is falsy, and otherwise names the candidate
   * the key was taken from.
   */
  lemma KeySourceNamesKeyOrigin(cs: seq<JsValue>)
    requires |cs| == 4
    ensures var key := ResolveKey(cs);
      forall i :: SelectedAt(cs, i) ==> key == TrimIfString(cs[i])
    ensures var key := ResolveKey(cs);
      forall i :: SelectedAt(cs, i) && IsTruthy(key) ==> KeySourceOf(cs, key) == Sources[i]
    ensures var key := ResolveKey(cs);
      KeySourceOf(cs, key) == NoKey <==> !IsTruthy(key)
    ensures NoneTruthy(cs) ==> !IsTruthy(ResolveKey(cs))
  {
    OrChainFirstTruthy(cs);
    if NoneTruthy(cs) {
      assert !IsTruthy(cs[3]);
    } else {
      var i :| 0 <= i < |cs| && IsTruthy(cs[i]);
      if !IsTruthy(cs[0]) && !IsTruthy(cs[1]) && !IsTruthy(cs[2]) {
        assert SelectedAt(cs, 3);
      }
    }
  }

  /** A first truthy candidate that is an already trimmed string is the key as it stands, logged by its position. */
  lemma TrimmedKeySelected(cs: seq<JsValue>, i: nat, k: string)
    requires |cs| == 4 && SelectedAt(cs, i) && cs[i] == Str(k) && IsTrimmed(k)
    ensures ResolveKey(cs) == Str(k) && KeySourceOf(cs, ResolveKey(cs)) == Sources[i]
  {
    KeySourceNamesKeyOrigin(cs);
    assert k == [] + k + [];
    TrimOfPadded([], k, []);
  }

  /**
   * Trimming happens only after the choice: a whitespace-only string that comes first
   * among the truthy candidates leaves the handler without a key, however usable
   * the later candidates are.
   */
  lemma WhitespaceKeyShadowsLaterSources(cs: seq<JsValue>, i: int)
    requires |cs| == 4 && SelectedAt(cs, i)
    requires cs[i].Str? && AllWhitespace(cs[i].s)
    ensures !IsTruthy(ResolveKey(cs))
    ensures KeySourceOf(cs, ResolveKey(cs)) == NoKey
  {
    KeySourceNamesKeyOrigin(cs);
  }

  /**
   * The logged source tag depends only on which candidates are truthy and on whether
   * the trimmed key is truthy; the text of the key itself never reaches the log.
   */
  lemma KeySourceIgnoresKeyText(cs1: seq<JsValue>, cs2: seq<JsValue>)
    requires |cs1| == 4 && |cs2| == 4
    requires forall j :: 0 <= j < 4 ==> IsTruthy(cs1[j]) == IsTruthy(cs2[j])
    requires IsTruthy(ResolveKey(cs1)) == IsTruthy(ResolveKey(cs2))
    ensures KeySourceOf(cs1, ResolveKey(cs1)) == KeySourceOf(cs2, ResolveKey(cs2))
  {
    assert IsTruthy(cs1[0]) == IsTruthy(cs2[0]) && IsTruthy(cs1[1]) == IsTruthy(cs2[1]);
    assert IsTruthy(cs1[2]) == IsTruthy(cs2[2]) && IsTruthy(cs1[3]) == IsTruthy(cs2[3]);
  }

  // ---------------------------------------------------------------------------
  // The handler's branches

  /** The message field of a parsed body, as the handler destructures it. */
  function MessageField(body: JsValue): JsValue {
    Get(BodyFields(body), "message")
  }

  /** The message check passes: a string with a character that is not whitespace. */
  predicate IsUsableMessage(m: JsValue) {
    m.Str? && !AllWhitespace(m.s)
  }

  function CandidatesOf(req: Request, env: Env, body: JsValue): seq<JsValue> {
    KeyCandidates(env, req.headers, Get(BodyFields(body), "apiKey"))
  }

  /** A preflight request is answered 200 with the CORS headers and no body, whatever else it carries. */
  lemma OptionsAnsweredFirst(req: Request, env: Env, up: Upstream)
    requires req.verb == "OPTIONS"
    ensures Handle(req, env, up) == Outcome(Response(200, CorsHeaders, NoBody), None, None)
  {
  }

  /** Any method but OPTIONS and POST is refused with 405. */
  lemma OtherMethodsRefused(req: Request, env: Env, up: Upstream)
    requires req.verb != "OPTIONS" && req.verb != "POST"
    ensures Handle(req, env, up) == Outcome(Response(405, [], ErrorBody(MethodNotAllowed)), None, None)
  {
  }

  /**
   * A POST without a usable message is refused with 400 before any key is looked up
   * or any upstream call is made: the outcome does not depend on the environment,
   * the key sources or the upstream.
   */
  lemma MissingMessageRefused(req: Request, env: Env, up: Upstream, body: JsValue)
    requires req.verb == "POST" && req.body == Parsed(body)
    requires !IsUsableMessage(MessageField(body))
    ensures Handle(req, env, up) == Outcome(Response(400, [], ErrorBody(MissingMessage)), None, None)
  {
  }

  /** A POST whose body cannot be read is answered 200 with the generic apology. */
  lemma UnreadableBodyApologises(req: Request, env: Env, up: Upstream)
    requires req.verb == "POST" && req.body == Unreadable
    ensures Handle(req, env, up) == Outcome(Reply(OopsReply), None, None)
  {
  }

  /** With a usable message but no usable key: 200 with the no-key reply, source "none", nothing sent upstream. */
  lemma NoKeyNoUpstream(req: Request, env: Env, up: Upstream, body: JsValue)
    requires req.verb == "POST" && req.body == Parsed(body)
    requires IsUsableMessage(MessageField(body))
    requires !IsTruthy(ResolveKey(CandidatesOf(req, env, body)))
    ensures Handle(req, env, up) == Outcome(Reply(NoKeyReply), None, Some(NoKey))
  {
    KeySourceNamesKeyOrigin(CandidatesOf(req, env, body));
  }

  /**
   * With a usable message and a usable key, exactly one request goes upstream: it
   * authorises with "Bearer " and the key's text, carries the system prompt and then
   * the message as sent (untrimmed), and the reply is what the upstream result maps to.
   */
  lemma UpstreamRequestSent(req: Request, env: Env, up: Upstream, body: JsValue, token: string)
    requires req.verb == "POST" && req.body == Parsed(body)
    requires IsUsableMessage(MessageField(body))
    requires IsTruthy(ResolveKey(CandidatesOf(req, env, body)))
    requires ToJsString(ResolveKey(CandidatesOf(req, env, body))) == Some(token)
    ensures var out := Handle(req, env, up);
      var cs := CandidatesOf(req, env, body);
      out.response == Reply(UpstreamReply(up)) && out.upstreamRequest.Some?
      && out.keySourceLog == Some(KeySourceOf(cs, ResolveKey(cs))) && out.keySourceLog.value != NoKey
    ensures var rq := Handle(req, env, up).upstreamRequest.value;
      rq.url == UpstreamUrl && rq.model == ModelName && rq.maxTokens == MaxTokens
      && rq.contentType == "application/json" && rq.title == AppTitle
      && rq.authorization == "Bearer " + token && BearerToken(rq.authorization) == Some(token)
      && rq.messages == [ChatMessage("system", SystemPrompt), ChatMessage("user", MessageField(body).s)]
      && rq.referer == Referer(HeaderValue(req.headers, "origin"), env.siteUrl)
  {
    KeySourceNamesKeyOrigin(CandidatesOf(req, env, body));
    var a := "Bearer " + token;
    assert a[..7] == "Bearer " && a[7..] == token;
  }

  /** A key whose conversion to text throws (a body object with its own "toString") ends in the apology, with nothing sent. */
  lemma UnprintableKeyApologises(req: Request, env: Env, up: Upstream, body: JsValue)
    requires req.verb == "POST" && req.body == Parsed(body)
    requires IsUsableMessage(MessageField(body))
    requires IsTruthy(ResolveKey(CandidatesOf(req, env, body)))
    requires ToJsString(ResolveKey(CandidatesOf(req, env, body))).None?
    ensures Handle(req, env, up).response == Reply(OopsReply)
    ensures Handle(req, env, up).upstreamRequest.None?
    ensures var cs := CandidatesOf(req, env, body);
      Handle(req, env, up).keySourceLog == Some(KeySourceOf(cs, ResolveKey(cs)))
  {
  }

  /** The upstream is called exactly for a POST with a usable message and a usable, printable key. */
  lemma UpstreamCalledExactlyWhen(req: Request, env: Env, up: Upstream)
    ensures Handle(req, env, up).upstreamRequest.Some? <==>
      req.verb == "POST" && req.body.Parsed?
      && IsUsableMessage(MessageField(req.body.value))
      && IsTruthy(ResolveKey(CandidatesOf(req, env, req.body.value)))
      && ToJsString(ResolveKey(CandidatesOf(req, env, req.body.value))).Some?
  {
  }

  /** Every POST that gets past the message check is answered 200 with a non-empty reply. */
  lemma PostAlwaysReplies(req: Request, env: Env, up: Upstream)
    requires req.verb == "POST"
    requires req.body.Parsed? ==> IsUsableMessage(MessageField(req.body.value))
    ensures Handle(req, env, up).response.status == 200
    ensures Handle(req, env, up).response.body.ReplyBody?
    ensures Handle(req, env, up).response.body.reply != []
  {
    match req.body
    case Unreadable =>
      UnreadableBodyApologises(req, env, up);
    case Parsed(body) =>
      var cs := CandidatesOf(req, env, body);
      var key := ResolveKey(cs);
      if !IsTruthy(key) {
        NoKeyNoUpstream(req, env, up, body);
      } else if ToJsString(key).None? {
        UnprintableKeyApologises(req, env, up, body);
      } else {
        UpstreamRequestSent(req, env, up, body, ToJsString(key).value);
      }
  }

  /** The status says which branch was taken: 405 for other methods, 400 for a missing message, 200 otherwise. */
  lemma StatusClassifiesRequest(req: Request, env: Env, up: Upstream)
    ensures Handle(req, env, up).response.status == 405 <==> req.verb != "OPTIONS" && req.verb != "POST"
    ensures Handle(req, env, up).response.status == 400 <==>
      req.verb == "POST" && req.body.Parsed? && !IsUsableMessage(MessageField(req.body.value))
  {
    if req.verb == "POST" {
      match req.body
      case Unreadable =>
        UnreadableBodyApologises(req, env, up);
      case Parsed(body) =>
        if IsUsableMessage(MessageField(body)) {
          PostAlwaysReplies(req, env, up);
        } else {
          MissingMessageRefused(req, env, up, body);
        }
    }
  }

  // ---------------------------------------------------------------------------
  // The upstream result

  /** A rejected `fetch` or `response.text()` is caught and answered with the generic apology. */
  lemma ThrownUpstreamApologises()
    ensures UpstreamReply(Threw) == OopsReply
  {
  }

  /** A response that is not ok gives the connection-trouble reply, whatever its body. */
  lemma NotOkIgnoresBody(data: Option<JsValue>)
    ensures UpstreamReply(Answered(false, data)) == TroubleReply
  {
  }

  /**
   * For an ok response the reply is the trimmed content of the first choice when that
   * is a string with something besides whitespace, the fallback when the content is
   * absent, null or blank (a body that is not JSON included), and the apology when the
   * content is some other value, on which calling `trim` throws.
   */
  lemma OkReplyFromContent(data: Option<JsValue>)
    ensures var c := ContentOf(data.GetOr(Null));
      c.Str? && !AllWhitespace(c.s) ==>
        UpstreamReply(Answered(true, data)) == Trim(c.s) && IsTrimmed(UpstreamReply(Answered(true, data)))
    ensures var c := ContentOf(data.GetOr(Null));
      IsNullish(c) || (c.Str? && AllWhitespace(c.s)) ==> UpstreamReply(Answered(true, data)) == FallbackReply
    ensures var c := ContentOf(data.GetOr(Null));
      !IsNullish(c) && !c.Str? ==> UpstreamReply(Answered(true, data)) == OopsReply
    ensures UpstreamReply(Answered(true, None)) == FallbackReply
  {
  }

  /** The chat-completion shape `{choices: [{message: {content}}]}` yields its content, trimmed. */
  lemma ChatCompletionReply(content: string)
    requires !AllWhitespace(content)
    ensures var data := Obj(map["choices" := Arr([Obj(map["message" := Obj(map["content" := Str(content)])])])]);
      UpstreamReply(Answered(true, Some(data))) == Trim(content)
  {
    var message := Obj(map["content" := Str(content)]);
    var choice := Obj(map["message" := message]);
    var data := Obj(map["choices" := Arr([choice])]);
    assert Get(data, "choices") == Arr([choice]);
    assert Get(Arr([choice]), "0") == choice;
    assert Get(choice, "message") == message;
    assert Get(message, "content") == Str(content);
    assert ContentOf(data) == Str(content);
    OkReplyFromContent(Some(data));
  }

  /** `{choices:[{message:{content:" hi there "}}]}` gives "hi there". */
  lemma ChatCompletionReplyExample()
    ensures var data := Obj(map["choices" := Arr([Obj(map["message" := Obj(map["content" := Str(" hi there ")])])])]);
      UpstreamReply(Answered(true, Some(data))) == "hi there"
  {
    assert " hi there " == " " + "hi there" + " ";
    TrimOfPadded(" ", "hi there", " ");
    assert !AllWhitespace(" hi there ") by { assert !IsWhitespace(" hi there "[1]); }
    ChatCompletionReply(" hi there ");
  }

  // ---------------------------------------------------------------------------
  // Worked examples

  /** An empty first candidate is skipped and "k2" is chosen. */
  lemma SecondaryKeyChosen()
    ensures var cs := [Str(""), Str("k2"), Str("k3"), Undefined];
      ResolveKey(cs) == Str("k2") && KeySourceOf(cs, ResolveKey(cs)) == EnvPublic
  {
    var cs := [Str(""), Str("k2"), Str("k3"), Undefined];
    assert SelectedAt(cs, 1);
    OrChainFirstTruthy(cs);
    assert Trim("k2") == "k2" by {
      assert "k2" == [] + "k2" + [];
      TrimOfPadded([], "k2", []);
    }
    assert ResolveKey(cs) == Str("k2");
  }

  /**
   * Whichever candidate comes first among the truthy ones, when it is an already
   * trimmed string it is sent as the bearer token and its position is the source logged.
   */
  lemma SelectedKeySent(req: Request, env: Env, up: Upstream, body: JsValue, i: nat, k: string)
    requires req.verb == "POST" && req.body == Parsed(body)
    requires IsUsableMessage(MessageField(body))
    requires SelectedAt(CandidatesOf(req, env, body), i)
    requires CandidatesOf(req, env, body)[i] == Str(k) && IsTrimmed(k)
    ensures var out := Handle(req, env, up);
      out.keySourceLog == Some(Sources[i])
      && out.upstreamRequest.Some? && out.upstreamRequest.value.authorization == "Bearer " + k
  {
    TrimmedKeySelected(CandidatesOf(req, env, body), i, k);
    UpstreamRequestSent(req, env, up, body, k);
  }

  /**
   * An unset or empty primary variable is skipped: a trimmed public key is used as
   * it is and logged as the public variable, whatever the header and body carry.
   */
  lemma EmptyPrimaryUsesPublicKey(req: Request, env: Env, up: Upstream, body: JsValue, k: string)
    requires req.verb == "POST" && req.body == Parsed(body)
    requires IsUsableMessage(MessageField(body))
    requires env.openRouterApiKey.GetOr("") == []
    requires env.publicOpenRouterApiKey == Some(k) && k != [] && IsTrimmed(k)
    ensures var out := Handle(req, env, up);
      out.keySourceLog == Some(EnvPublic) && out.keySourceLog.value.Tag() == "env:NEXT_PUBLIC_OPENROUTER_API_KEY"
      && out.upstreamRequest.Some? && out.upstreamRequest.value.authorization == "Bearer " + k
  {
    var cs := CandidatesOf(req, env, body);
    assert SelectedAt(cs, 1);
    SelectedKeySent(req, env, up, body, 1, k);
  }

  /**
   * A primary variable with padding around a key is trimmed before use: the request
   * authorises with "Bearer " and the key without its padding, and the source logged
   * is the primary variable, whatever the other candidates hold.
   */
  lemma PaddedPrimaryKeyIsTrimmed(req: Request, env: Env, up: Upstream, body: JsValue, p: string, k: string, q: string)
    requires req.verb == "POST" && req.body == Parsed(body)
    requires IsUsableMessage(MessageField(body))
    requires env.openRouterApiKey == Some(p + k + q)
    requires AllWhitespace(p) && AllWhitespace(q) && IsTrimmed(k) && k != []
    ensures var out := Handle(req, env, up);
      out.keySourceLog == Some(EnvPrimary) && out.keySourceLog.value.Tag() == "env:OPENROUTER_API_KEY"
      && out.upstreamRequest.Some? && out.upstreamRequest.value.authorization == "Bearer " + k
  {
    var cs := CandidatesOf(req, env, body);
    assert ResolveKey(cs) == Str(k) && KeySourceOf(cs, ResolveKey(cs)) == EnvPrimary by {
      assert p + k + q != [] by { assert |p + k + q| >= |k|; }
      assert SelectedAt(cs, 0);
      OrChainFirstTruthy(cs);
      TrimOfPadded(p, k, q);
    }
    UpstreamRequestSent(req, env, up, body, k);
  }

  /**
   * With neither environment variable set to a key, the `x-openrouter-key` header
   * outranks the body's `apiKey`: a trimmed header key is sent and logged as the
   * header, whatever the body carries.
   */
  lemma HeaderKeyBeatsBodyKey(req: Request, env: Env, up: Upstream, body: JsValue, k: string)
    requires req.verb == "POST" && req.body == Parsed(body)
    requires IsUsableMessage(MessageField(body))
    requires env.openRouterApiKey.GetOr("") == [] && env.publicOpenRouterApiKey.GetOr("") == []
    requires "x-openrouter-key" in req.headers && req.headers["x-openrouter-key"] == k
    requires k != [] && IsTrimmed(k)
    ensures var out := Handle(req, env, up);
      out.keySourceLog == Some(HeaderKey) && out.keySourceLog.value.Tag() == "header:x-openrouter-key"
      && out.upstreamRequest.Some? && out.upstreamRequest.value.authorization == "Bearer " + k
  {
    var cs := CandidatesOf(req, env, body);
    assert SelectedAt(cs, 2);
    SelectedKeySent(req, env, up, body, 2, k);
  }

  /** With no earlier candidate truthy, a string `apiKey` in the body is the first truthy candidate. */
  lemma BodyKeyIsLastCandidate(req: Request, env: Env, body: JsValue, k: string)
    requires env.openRouterApiKey.GetOr("") == [] && env.publicOpenRouterApiKey.GetOr("") == []
    requires HeaderValue(req.headers, "x-openrouter-key").GetOr("") == []
    requires body.Obj? && "apiKey" in body.props && body.props["apiKey"] == Str(k) && k != []
    ensures SelectedAt(CandidatesOf(req, env, body), 3) && CandidatesOf(req, env, body)[3] == Str(k)
  {
  }

  /**
   * The body's `apiKey` is the last resort: with both environment variables and the
   * header unset or empty, a trimmed string key from the body is sent and logged as
   * the body field.
   */
  lemma BodyKeyUsedLast(req: Request, env: Env, up: Upstream, body: JsValue, k: string)
    requires req.verb == "POST" && req.body == Parsed(body)
    requires IsUsableMessage(MessageField(body))
    requires env.openRouterApiKey.GetOr("") == [] && env.publicOpenRouterApiKey.GetOr("") == []
    requires HeaderValue(req.headers, "x-openrouter-key").GetOr("") == []
    requires body.Obj? && "apiKey" in body.props && body.props["apiKey"] == Str(k)
    requires k != [] && IsTrimmed(k)
    ensures var out := Handle(req, env, up);
      out.keySourceLog == Some(BodyKey) && out.keySourceLog.value.Tag() == "body.apiKey"
      && out.upstreamRequest.Some? && out.upstreamRequest.value.authorization == "Bearer " + k
  {
    BodyKeyIsLastCandidate(req, env, body, k);
    SelectedKeySent(req, env, up, body, 3, k);
  }

  /** A primary variable holding only a space wins the chain and leaves the server without a key. */
  lemma BlankPrimaryKeyExample(up: Upstream)
    ensures var req := Request("POST", map["x-openrouter-key" := "k3"], Parsed(Obj(map["message" := Str("hi")])));
      Handle(req, Env(Some(" "), Some("k2"), None), up) == Outcome(Reply(NoKeyReply), None, Some(NoKey))
  {
    var body := Obj(map["message" := Str("hi")]);
    var req := Request("POST", map["x-openrouter-key" := "k3"], Parsed(body));
    var env := Env(Some(" "), Some("k2"), None);
    assert !AllWhitespace("hi") by { assert !IsWhitespace("hi"[0]); }
    assert MessageField(body) == Str("hi");
    var cs := CandidatesOf(req, env, body);
    assert cs == [Str(" "), Str("k2"), Str("k3"), Undefined];
    assert SelectedAt(cs, 0);
    assert AllWhitespace(" ");
    WhitespaceKeyShadowsLaterSources(cs, 0);
    NoKeyNoUpstream(req, env, up, body);
  }

  /** `POST {}` is refused with 400 "Missing message". */
  lemma EmptyBodyExample(env: Env, up: Upstream)
    ensures Handle(Request("POST", map[], Parsed(Obj(map[]))), env, up)
      == Outcome(Response(400, [], ErrorBody(MissingMessage)), None, None)
  {
  }
}
