/**
 * `lambda_handler` without its I/O: the CORS headers, the preflight
 * short-circuit, lenient body parsing, the default prompt, the two searches
 * combined, the prompt, the model call's request and the shaping of its reply
 * into a 200 or 500 response. What the search providers and the model sent back
 * (or raised) is an input, and so are the runtime's JSON codec and `str`.
 */
module Handler {
  import opened Py
  import opened Cors
  import opened Search
  import opened BedrockReply
  import opened PromptBuilder

  const DefaultPrompt := "Explain recursion in simple steps."
  const DefaultModelId := "us.anthropic.claude-3-5-sonnet-20241022-v2:0"
  const AnthropicVersion := "bedrock-2023-05-31"
  const MaxTokens := 1500
  const NewsLimit := 3
  const NoAnswer := "I couldn't find enough reliable information to answer that."

  /**
   * The module-level settings as the environment gave them: the ARN and the
   * keys stripped, the provider stripped and lower-cased.
   */
  datatype Config = Config(inferenceProfileArn: string, searchProvider: string, tavilyApiKey: string, newsApiKey: string)

  /** What each remote call returned, decoded, or the exception it raised. */
  datatype Replies = Replies(tavily: Result<Json>, news: Result<Json>, bedrock: Result<Json>)

  /**
   * The runtime functions whose exact output is not modelled: `json.dumps`,
   * `json.loads` (`None` when it raises), `str` of a non-string value inside an
   * f-string, and `str` of an exception.
   */
  datatype Runtime = Runtime(dumps: Json -> string, loads: string -> Option<Json>, render: Json -> string, describe: PyError -> string)

  datatype Response = Response(statusCode: int, headers: map<string, string>, body: string)

  /** The request sent to the model: which model, the fixed parameters, and the prompt. */
  datatype Invocation = Invocation(modelId: string, anthropicVersion: string, maxTokens: int, prompt: string)

  /** The handler either raises or returns a response, having called the model or not. */
  datatype Outcome = Raised(error: PyError) | Returned(response: Response, invoked: Option<Invocation>)

  /** The request's method shapes: `requestContext` and its `http` entry are dicts when present. */
  predicate MethodShapesUsable(event: map<string, Json>)
  {
    var ctx := GetOr(event, "requestContext", JObject(map[]));
    ctx.JObject? && GetOr(ctx.fields, "http", JObject(map[])).JObject?
  }

  /**
   * `requestContext.http.method` (HTTP API events), or else `httpMethod`
   * (REST API events). A present `requestContext` or `http` that is not a dict
   * raises, an explicit `null` included: the `{}` default covers only a
   * missing key.
   */
  function RequestMethod(event: map<string, Json>): (r: Result<Json>)
    ensures r.Ok? <==> MethodShapesUsable(event)
    ensures "requestContext" !in event ==> r == Ok(Get(event, "httpMethod"))
    ensures r.Ok? && r.value != Get(event, "httpMethod") ==> Truthy(r.value)
  {
    var ctx := GetOr(event, "requestContext", JObject(map[]));
    if !ctx.JObject? then Raise(AttributeError)
    else
      var http := GetOr(ctx.fields, "http", JObject(map[]));
      if !http.JObject? then Raise(AttributeError)
      else Ok(Or(Get(http.fields, "method"), Get(event, "httpMethod")))
  }

  /**
   * The lenient body parse: a falsy body counts as `"{}"`; a string body is
   * decoded, and a string that does not decode becomes `{}`; any other body is
   * kept as it is.
   */
  function ParseBody(event: map<string, Json>, loads: string -> Option<Json>): (body: Json)
    ensures !Truthy(Get(event, "body")) && loads("{}") == Some(JObject(map[])) ==> body == JObject(map[])
    ensures Get(event, "body").JString? && Get(event, "body").s != "" && loads(Get(event, "body").s).None? ==>
              body == JObject(map[])
    ensures Get(event, "body").JString? && Get(event, "body").s != "" && loads(Get(event, "body").s).Some? ==>
              body == loads(Get(event, "body").s).value
    ensures Truthy(Get(event, "body")) && !Get(event, "body").JString? ==> body == Get(event, "body")
  {
    var raw := Or(Get(event, "body"), JString("{}"));
    if raw.JString? then
      match loads(raw.s)
      case Some(decoded) => decoded
      case None => JObject(map[])
    else raw
  }

  /**
   * `(body.get("prompt") or "").strip() or DEFAULT`: the stripped prompt, or the
   * default when it is missing, falsy or blank. Raises when the body is not a
   * dict or the prompt is a truthy non-string.
   */
  function UserPrompt(body: Json): (r: Result<string>)
    ensures r.Ok? <==> body.JObject? && (!Truthy(Get(body.fields, "prompt")) || Get(body.fields, "prompt").JString?)
    ensures r.Ok? ==> r.value != "" && !IsSpace(r.value[0]) && !IsSpace(r.value[|r.value| - 1])
    ensures r.Ok? && Get(body.fields, "prompt").JString? && !AllSpace(Get(body.fields, "prompt").s) ==>
              r.value == Strip(Get(body.fields, "prompt").s)
    ensures r.Ok? && (!Get(body.fields, "prompt").JString? || AllSpace(Get(body.fields, "prompt").s)) ==>
              r.value == DefaultPrompt
  {
    if !body.JObject? then Raise(AttributeError)
    else
      var given := Or(Get(body.fields, "prompt"), JString(""));
      if !given.JString? then Raise(AttributeError)
      else
        var p := Strip(given.s);
        if p == "" then
          assert DefaultPrompt[0] == 'E' && DefaultPrompt[|DefaultPrompt| - 1] == '.';
          Ok(DefaultPrompt)
        else Ok(p)
  }

  /** The web search runs only when the provider is `tavily`; otherwise its empty default stands. */
  function WebResults(config: Config, tavily: Result<Json>): (ws: WebSearch)
    ensures config.searchProvider != "tavily" || config.tavilyApiKey == "" ==> ws == NoWebResults
    ensures config.searchProvider == "tavily" ==> ws == TavilySearch(config.tavilyApiKey, tavily)
    ensures forall k :: 0 <= k < |ws.results| ==> ws.results[k].Web?
  {
    if config.searchProvider == "tavily" then TavilySearch(config.tavilyApiKey, tavily) else NoWebResults
  }

  /** `web_results.get("results", []) + news_results`. */
  function Sources(config: Config, replies: Replies): (r: seq<SearchResult>)
    ensures WebResults(config, replies.tavily).results <= r
    ensures |r| <= |WebResults(config, replies.tavily).results| + NewsLimit
    ensures forall k :: |WebResults(config, replies.tavily).results| <= k < |r| ==> r[k].News?
    ensures config.newsApiKey == "" ==> r == WebResults(config, replies.tavily).results
  {
    WebResults(config, replies.tavily).results + NewsSearch(config.newsApiKey, replies.news, NewsLimit)
  }

  /** The configured inference profile when there is one, else the fixed model id. */
  function ModelId(arn: string): (id: string)
    ensures id != ""
    ensures arn != "" ==> id == arn
    ensures arn == "" ==> id == DefaultModelId
  {
    if arn != "" then arn else DefaultModelId
  }

  /**
   * The answer from the stripped model text: that text unless it is empty or
   * `"{}"`, else the search provider's answer when truthy and the fixed
   * message otherwise. Logging `len(answer_text)` raises on a number or a
   * boolean, the only values here without a length.
   */
  function Answer(stripped: string, webAnswer: Json): (r: Result<Json>)
    ensures stripped != "" && stripped != "{}" ==> r == Ok(JString(stripped))
    ensures (stripped == "" || stripped == "{}") && !Truthy(webAnswer) ==> r == Ok(JString(NoAnswer))
    ensures (stripped == "" || stripped == "{}") && Truthy(webAnswer) ==>
              r == (if webAnswer.JNumber? || webAnswer.JBool? then Raise(TypeError) else Ok(webAnswer))
    ensures r.Ok? ==> Truthy(r.value)
  {
    if stripped != "" && stripped != "{}" then Ok(JString(stripped))
    else if !Truthy(webAnswer) then Ok(JString(NoAnswer))
    else if webAnswer.JNumber? || webAnswer.JBool? then Raise(TypeError)
    else Ok(webAnswer)
  }

  /** The sources as the list of dicts the response carries. */
  function SourcesJson(sources: seq<SearchResult>): (j: seq<Json>)
    ensures |j| == |sources|
    ensures forall k :: 0 <= k < |sources| ==> j[k] == sources[k].ToJson()
  {
    seq(|sources|, k requires 0 <= k < |sources| => sources[k].ToJson())
  }

  /** The success body: the answer, every source, and a trace whose `web_used` says whether there were sources. */
  function SuccessBody(answer: Json, sources: seq<SearchResult>): (body: Json)
    ensures body.JObject? && body.fields.Keys == {"answer", "sources", "trace"}
    ensures body.fields["answer"] == answer
    ensures body.fields["sources"] == JArray(SourcesJson(sources))
    ensures body.fields["trace"] == JObject(map["kb_used" := JBool(false), "web_used" := JBool(sources != [])])
    ensures Truthy(body.fields["sources"]) <==> body.fields["trace"].fields["web_used"] == JBool(true)
  {
    JObject(map[
      "answer" := answer,
      "sources" := JArray(SourcesJson(sources)),
      "trace" := JObject(map["kb_used" := JBool(false), "web_used" := JBool(sources != [])])
    ])
  }

  /** The CORS headers plus the JSON content type. */
  function JsonHeaders(cors: map<string, string>): (h: map<string, string>)
    ensures h.Keys == cors.Keys + {"Content-Type"}
    ensures h["Content-Type"] == "application/json"
    ensures forall name :: name in cors && name != "Content-Type" ==> h[name] == cors[name]
  {
    cors["Content-Type" := "application/json"]
  }

  /** The 500 response for an exception raised while calling the model or reading its reply. */
  function ModelError(cors: map<string, string>, e: PyError, rt: Runtime): (resp: Response)
    ensures resp.statusCode == 500 && resp.headers == JsonHeaders(cors)
    ensures resp.body == rt.dumps(JObject(map["error" := JString("Bedrock error: " + rt.describe(e))]))
  {
    Response(500, JsonHeaders(cors), rt.dumps(JObject(map["error" := JString("Bedrock error: " + rt.describe(e))])))
  }

  /**
   * The `try` around the model call: the decoded reply (or what the call
   * raised) becomes a 500 on any exception, otherwise a 200 carrying the
   * answer and the sources.
   */
  function ModelResponse(cors: map<string, string>, webAnswer: Json, sources: seq<SearchResult>,
                         reply: Result<Json>, rt: Runtime): (resp: Response)
    ensures resp.statusCode == 200 || resp.statusCode == 500
    ensures resp.headers == JsonHeaders(cors)
  {
    match reply
    case Raise(e) => ModelError(cors, e, rt)
    case Ok(modelJson) =>
      match ExtractText(modelJson, rt.dumps)
      case Raise(e) => ModelError(cors, e, rt)
      case Ok(text) =>
        match Answer(Strip(text), webAnswer)
        case Raise(e) => ModelError(cors, e, rt)
        case Ok(answer) => Response(200, JsonHeaders(cors), rt.dumps(SuccessBody(answer, sources)))
  }

  /**
   * The model's reply becomes a 500 carrying the error when the call, the
   * extraction or the answer check raises, and otherwise a 200 carrying the
   * answer and the sources.
   */
  lemma ModelResponseCases(cors: map<string, string>, webAnswer: Json, sources: seq<SearchResult>,
                           reply: Result<Json>, rt: Runtime)
    ensures reply.Raise? ==> ModelResponse(cors, webAnswer, sources, reply, rt) == ModelError(cors, reply.error, rt)
    ensures reply.Ok? && ExtractText(reply.value, rt.dumps).Raise? ==>
              ModelResponse(cors, webAnswer, sources, reply, rt) == ModelError(cors, ExtractText(reply.value, rt.dumps).error, rt)
    ensures ModelResponse(cors, webAnswer, sources, reply, rt).statusCode == 200 <==>
              reply.Ok? && ExtractText(reply.value, rt.dumps).Ok? && Answer(Strip(ExtractText(reply.value, rt.dumps).value), webAnswer).Ok?
    ensures ModelResponse(cors, webAnswer, sources, reply, rt).statusCode == 200 ==>
              ModelResponse(cors, webAnswer, sources, reply, rt).body
              == rt.dumps(SuccessBody(Answer(Strip(ExtractText(reply.value, rt.dumps).value), webAnswer).value, sources))
  {
  }

  /** The prompt the handler works with, once the body is parsed. */
  function EventPrompt(event: map<string, Json>, rt: Runtime): (r: Result<string>)
    ensures r.Ok? ==> r.value != "" && !IsSpace(r.value[0]) && !IsSpace(r.value[|r.value| - 1])
  {
    UserPrompt(ParseBody(event, rt.loads))
  }

  /**
   * Everything after the prompt is known: both searches, the prompt built from
   * their combined results, the model call and its response. Building the
   * prompt is the one step here that can raise.
   */
  function Answering(cors: map<string, string>, prompt: string, config: Config, replies: Replies, rt: Runtime): (out: Outcome)
    ensures out.Raised? <==> PromptText(prompt, Sources(config, replies), rt.render).None?
    ensures out.Returned? ==>
              && out.invoked.Some?
              && PromptText(prompt, Sources(config, replies), rt.render) == Some(out.invoked.value.prompt)
              && out.invoked.value.modelId == ModelId(config.inferenceProfileArn)
              && out.invoked.value.anthropicVersion == AnthropicVersion
              && out.invoked.value.maxTokens == MaxTokens
              && out.response == ModelResponse(cors, WebResults(config, replies.tavily).answer, Sources(config, replies), replies.bedrock, rt)
  {
    var web := WebResults(config, replies.tavily);
    var sources := web.results + NewsSearch(config.newsApiKey, replies.news, NewsLimit);
    match PromptText(prompt, sources, rt.render)
    case None => Raised(AttributeError)
    case Some(text) =>
      var call := Invocation(ModelId(config.inferenceProfileArn), AnthropicVersion, MaxTokens, text);
      Returned(ModelResponse(cors, web.answer, sources, replies.bedrock, rt), Some(call))
  }

  /**
   * `lambda_handler`: the CORS headers first, then the preflight answer, and
   * otherwise the prompt, the searches, the model call and the response. It
   * never answers 400: every request that does not raise gets a 200 or a 500.
   */
  function LambdaHandler(event: map<string, Json>, config: Config, replies: Replies, rt: Runtime): (out: Outcome)
    ensures CorsHeaders(event).Raise? ==> out.Raised?
    ensures out.Returned? ==> out.response.statusCode == 200 || out.response.statusCode == 500
    ensures out.Returned? && out.invoked.None? ==> RequestMethod(event) == Ok(JString("OPTIONS"))
  {
    match CorsHeaders(event)
    case Raise(e) => Raised(e)
    case Ok(cors) =>
      match RequestMethod(event)
      case Raise(e) => Raised(e)
      case Ok(verb) =>
        if verb == JString("OPTIONS") then Returned(Response(200, cors, ""), None)
        else
          match EventPrompt(event, rt)
          case Raise(e) => Raised(e)
          case Ok(prompt) => Answering(cors, prompt, config, replies, rt)
  }

  /** A preflight request is answered 200 with the CORS headers and an empty body, before the body is looked at. */
  lemma PreflightShortCircuit(event: map<string, Json>, config: Config, replies: Replies, rt: Runtime)
    requires CorsHeaders(event).Ok?
    requires RequestMethod(event) == Ok(JString("OPTIONS"))
    ensures LambdaHandler(event, config, replies, rt) == Returned(Response(200, CorsHeaders(event).value, ""), None)
  {
  }

  /**
   * An HTTP API preflight without headers gets its 200 and the default origin,
   * whatever else the event and its request context hold: its body is never read.
   */
  lemma HttpApiPreflight(event: map<string, Json>, ctx: map<string, Json>, http: map<string, Json>,
                         config: Config, replies: Replies, rt: Runtime)
    requires Get(event, "requestContext") == JObject(ctx)
    requires Get(ctx, "http") == JObject(http) && Get(http, "method") == JString("OPTIONS")
    requires !Truthy(Get(event, "headers"))
    ensures LambdaHandler(event, config, replies, rt).Returned?
    ensures LambdaHandler(event, config, replies, rt).response.statusCode == 200
    ensures LambdaHandler(event, config, replies, rt).response.body == ""
    ensures LambdaHandler(event, config, replies, rt).response.headers["Access-Control-Allow-Origin"] == DefaultOrigin
  {
    assert RequestMethod(event) == Ok(JString("OPTIONS"));
    NoOriginGetsDefault(event);
    PreflightShortCircuit(event, config, replies, rt);
  }

  /** The CORS headers survive in a response that carries them as they are or with the content type added. */
  lemma KeptHeaders(cors: map<string, string>, headers: map<string, string>)
    requires headers == cors || (headers == JsonHeaders(cors) && "Content-Type" !in cors)
    ensures forall name :: name in cors ==> name in headers && headers[name] == cors[name]
  {
  }

  /** The CORS headers never include a content type. */
  lemma CorsLacksContentType(event: map<string, Json>)
    requires CorsHeaders(event).Ok?
    ensures "Content-Type" !in CorsHeaders(event).value
  {
  }

  /** Every response the handler returns carries the four CORS headers unchanged. */
  lemma ResponsesCarryCorsHeaders(event: map<string, Json>, config: Config, replies: Replies, rt: Runtime)
    requires LambdaHandler(event, config, replies, rt).Returned?
    ensures CorsHeaders(event).Ok?
    ensures forall name :: name in CorsHeaders(event).value ==>
              && name in LambdaHandler(event, config, replies, rt).response.headers
              && LambdaHandler(event, config, replies, rt).response.headers[name] == CorsHeaders(event).value[name]
  {
    var out := LambdaHandler(event, config, replies, rt);
    var cors := CorsHeaders(event).value;
    if RequestMethod(event) == Ok(JString("OPTIONS")) {
      PreflightShortCircuit(event, config, replies, rt);
      KeptHeaders(cors, out.response.headers);
    } else {
      ModelRequest(event, config, replies, rt);
      CorsLacksContentType(event);
      KeptHeaders(cors, out.response.headers);
    }
  }

  /**
   * Unless the request is a preflight, the model is called with the chosen
   * model id, the fixed parameters and the prompt built from the request's
   * prompt and all sources, and the response is shaped from its reply.
   */
  lemma ModelRequest(event: map<string, Json>, config: Config, replies: Replies, rt: Runtime)
    requires LambdaHandler(event, config, replies, rt).Returned?
    requires RequestMethod(event) != Ok(JString("OPTIONS"))
    ensures CorsHeaders(event).Ok? && EventPrompt(event, rt).Ok?
    ensures var out := LambdaHandler(event, config, replies, rt);
            && out.invoked.Some?
            && PromptText(EventPrompt(event, rt).value, Sources(config, replies), rt.render) == Some(out.invoked.value.prompt)
            && out.invoked.value.modelId == ModelId(config.inferenceProfileArn)
            && out.invoked.value.anthropicVersion == AnthropicVersion
            && out.invoked.value.maxTokens == MaxTokens
            && out.response == ModelResponse(CorsHeaders(event).value, WebResults(config, replies.tavily).answer,
                                             Sources(config, replies), replies.bedrock, rt)
  {
  }

  /** A string body that does not decode is read as `{}`, so the default prompt is used. */
  lemma UnparsableBodyGivesDefault(event: map<string, Json>, rt: Runtime)
    requires Get(event, "body").JString? && Get(event, "body").s != ""
    requires rt.loads(Get(event, "body").s).None?
    ensures EventPrompt(event, rt) == Ok(DefaultPrompt)
  {
  }

  /** A missing or empty body is read as `"{}"`, so the default prompt is used. */
  lemma MissingBodyGivesDefault(event: map<string, Json>, rt: Runtime)
    requires !Truthy(Get(event, "body"))
    requires rt.loads("{}") == Some(JObject(map[]))
    ensures EventPrompt(event, rt) == Ok(DefaultPrompt)
  {
  }

  /**
   * The lenient parse stops at decoding: a body that decodes to something other
   * than a dict makes `body.get` raise, so the handler fails rather than using
   * the default prompt.
   */
  lemma DecodedNonObjectBodyRaises(event: map<string, Json>, rt: Runtime)
    requires Get(event, "body").JString? && Get(event, "body").s != ""
    requires rt.loads(Get(event, "body").s).Some? && !rt.loads(Get(event, "body").s).value.JObject?
    ensures EventPrompt(event, rt) == Raise(AttributeError)
  {
    var body := ParseBody(event, rt.loads);
    assert body == rt.loads(Get(event, "body").s).value;
    assert !body.JObject?;
  }

  /** Off the preflight path, a body that decodes to a non-dict makes the whole handler raise. */
  lemma NonObjectBodyHandlerRaises(event: map<string, Json>, config: Config, replies: Replies, rt: Runtime)
    requires CorsHeaders(event).Ok? && RequestMethod(event).Ok? && RequestMethod(event) != Ok(JString("OPTIONS"))
    requires Get(event, "body").JString? && Get(event, "body").s != ""
    requires rt.loads(Get(event, "body").s).Some? && !rt.loads(Get(event, "body").s).value.JObject?
    ensures LambdaHandler(event, config, replies, rt) == Raised(AttributeError)
  {
    DecodedNonObjectBodyRaises(event, rt);
  }

  /** The sources are the web results, in order, followed by at most three news results, in order. */
  lemma SourcesWebThenNews(config: Config, replies: Replies)
    ensures var web := WebResults(config, replies.tavily).results;
            var news := NewsSearch(config.newsApiKey, replies.news, NewsLimit);
            && |Sources(config, replies)| == |web| + |news|
            && |news| <= NewsLimit
            && (forall k :: 0 <= k < |web| ==> Sources(config, replies)[k] == web[k] && web[k].Web?)
            && (forall k :: 0 <= k < |news| ==> Sources(config, replies)[|web| + k] == news[k] && news[k].News?)
  {
    var web := WebResults(config, replies.tavily).results;
    var news := NewsSearch(config.newsApiKey, replies.news, NewsLimit);
    assert Sources(config, replies) == web + news;
    Concatenation(web, news);
  }

  /** Where the elements of `a + b` come from. */
  lemma Concatenation<T>(a: seq<T>, b: seq<T>)
    ensures |a + b| == |a| + |b|
    ensures forall k :: 0 <= k < |a| ==> (a + b)[k] == a[k]
    ensures forall k :: 0 <= k < |b| ==> (a + b)[|a| + k] == b[k]
  {
  }

  /** Without search keys there are no sources: the prompt has no sources section and `web_used` is false. */
  lemma NoKeysNoSources(config: Config, replies: Replies, prompt: string, answer: Json, rt: Runtime)
    requires config.tavilyApiKey == "" && config.newsApiKey == ""
    ensures Sources(config, replies) == []
    ensures PromptText(prompt, Sources(config, replies), rt.render).Some?
    ensures StartsWith(PromptText(prompt, Sources(config, replies), rt.render).value, "IMPORTANT INSTRUCTIONS:")
    ensures SuccessBody(answer, Sources(config, replies)).fields["trace"].fields["web_used"] == JBool(false)
  {
    PromptOpening(prompt, [], rt.render);
  }

  /**
   * A request with a prompt and no search keys, answered by the model in the
   * plain `content` shape: the model is sent the prompt without a sources
   * section and the response is a 200 carrying the model's text.
   */
  lemma PlainRequestAnswered(event: map<string, Json>, q: string, config: Config, replies: Replies, rt: Runtime, reply: string)
    requires CorsHeaders(event).Ok? && RequestMethod(event).Ok? && RequestMethod(event) != Ok(JString("OPTIONS"))
    requires EventPrompt(event, rt) == Ok(q)
    requires reply != "" && Strip(reply) == reply && reply != "{}"
    requires config.tavilyApiKey == "" && config.newsApiKey == ""
    requires replies.bedrock == Ok(JObject(map["content" := JArray([JObject(map["type" := JString("text"), "text" := JString(reply)])])]))
    ensures var out := LambdaHandler(event, config, replies, rt);
            && out.Returned?
            && out.invoked.Some?
            && Some(out.invoked.value.prompt) == PromptText(q, [], rt.render)
            && out.response.statusCode == 200
            && out.response.body == rt.dumps(SuccessBody(JString(reply), []))
  {
    NoKeysNoSources(config, replies, q, JString(reply), rt);
    PromptBuilt(event, config, replies, rt);
    ModelRequest(event, config, replies, rt);
    PlainReplyAnswered(CorsHeaders(event).value, WebResults(config, replies.tavily).answer, reply, rt);
  }

  /** When the prompt can be built, a request other than a preflight returns a response from the model's reply. */
  lemma PromptBuilt(event: map<string, Json>, config: Config, replies: Replies, rt: Runtime)
    requires CorsHeaders(event).Ok? && RequestMethod(event).Ok? && RequestMethod(event) != Ok(JString("OPTIONS"))
    requires EventPrompt(event, rt).Ok?
    requires PromptText(EventPrompt(event, rt).value, Sources(config, replies), rt.render).Some?
    ensures LambdaHandler(event, config, replies, rt).Returned?
  {
    assert LambdaHandler(event, config, replies, rt)
        == Answering(CorsHeaders(event).value, EventPrompt(event, rt).value, config, replies, rt);
  }

  /** A `content`-shaped model reply with non-blank text is answered 200 with that text. */
  lemma PlainReplyAnswered(cors: map<string, string>, webAnswer: Json, reply: string, rt: Runtime)
    requires reply != "" && Strip(reply) == reply && reply != "{}"
    ensures var r := Ok(JObject(map["content" := JArray([JObject(map["type" := JString("text"), "text" := JString(reply)])])]));
            && ModelResponse(cors, webAnswer, [], r, rt).statusCode == 200
            && ModelResponse(cors, webAnswer, [], r, rt).body == rt.dumps(SuccessBody(JString(reply), []))
  {
    ContentShapeText(reply, rt.dumps);
  }
}
