/** The Anthropic-style adapter (src/lib/llm/providers/anthropic.ts). */
module Anthropic {
  import opened Js
  import opened Seqs
  import opened LlmTypes
  import opened Adapter

  const Label := "Anthropic"
  const DefaultEndpoint := "https://api.anthropic.com/v1/messages"
  const ApiVersion := "2023-06-01"

  /** `data.content[0].text`. */
  const ContentPath: seq<Key> := [Name("content"), Index(0), Name("text")]

  /** `system: request.systemPrompt`: an absent system prompt leaves the property `undefined`. */
  function SystemField(request: LLMRequest): Json {
    match request.systemPrompt
    case Some(s) => Str(s)
    case None => Undefined
  }

  /** The body fields written before `...config.config`. */
  function Defaults(config: LLMConfig, request: LLMRequest): Fields {
    [ ("model", Str(config.model)),
      ("messages", Arr([Message("user", request.prompt)])),
      ("system", SystemField(request)),
      ("temperature", Num(OrDefault(request.temperature, DefaultTemperature))),
      ("max_tokens", Num(OrDefault(request.maxTokens, DefaultMaxTokens))) ]
  }

  function Body(config: LLMConfig, request: LLMRequest): Fields {
    Merge(Defaults(config, request), config.config)
  }

  function Request(config: LLMConfig, request: LLMRequest): HttpRequest {
    HttpRequest(
      if Present(config.apiEndpoint) then config.apiEndpoint.value else DefaultEndpoint,
      "POST",
      [ ("Content-Type", Str("application/json")),
        ("x-api-key", Str(config.apiKey)),
        ("anthropic-version", Str(ApiVersion)) ],
      Body(config, request))
  }

  /**
   * The request goes to the configured endpoint when it is a non-empty
   * string, else to the default, and carries the key in `x-api-key` and the
   * fixed API version header.
   */
  lemma RequestTarget(config: LLMConfig, request: LLMRequest)
    ensures Present(config.apiEndpoint) ==> Request(config, request).url == config.apiEndpoint.value
    ensures !Present(config.apiEndpoint) ==> Request(config, request).url == DefaultEndpoint
    ensures Lookup(Request(config, request).headers, "x-api-key") == Str(config.apiKey)
    ensures Lookup(Request(config, request).headers, "anthropic-version") == Str("2023-06-01")
  {
    var headers := Request(config, request).headers;
    assert Keys(headers) == ["Content-Type", "x-api-key", "anthropic-version"];
    LookupDistinct(headers, 1);
    LookupDistinct(headers, 2);
  }

  /**
   * The body holds exactly one user message with the prompt, the system
   * prompt, and the sampling defaults, each unless `config.config` names its
   * key, whose value then wins. Keys are in JavaScript order: array-index
   * keys of `config.config` lead, then the five fixed names in this order.
   */
  lemma BodyFields(config: LLMConfig, request: LLMRequest)
    ensures Distinct(Keys(Body(config, request))) && JsOrdered(Keys(Body(config, request)))
    ensures |Named(Keys(Body(config, request)))| >= 5
    ensures Named(Keys(Body(config, request)))[..5] == ["model", "messages", "system", "temperature", "max_tokens"]
    ensures forall k :: k in Keys(config.config) ==> Lookup(Body(config, request), k) == Lookup(config.config, k)
    ensures "model" !in Keys(config.config) ==> Lookup(Body(config, request), "model") == Str(config.model)
    ensures "messages" !in Keys(config.config) ==>
      Lookup(Body(config, request), "messages") == Arr([Message("user", request.prompt)])
    ensures "system" !in Keys(config.config) ==> Lookup(Body(config, request), "system") == SystemField(request)
    ensures "temperature" !in Keys(config.config) ==>
      Lookup(Body(config, request), "temperature") == Num(OrDefault(request.temperature, DefaultTemperature))
    ensures "max_tokens" !in Keys(config.config) ==>
      Lookup(Body(config, request), "max_tokens") == Num(OrDefault(request.maxTokens, DefaultMaxTokens))
  {
    var base := Defaults(config, request);
    assert Keys(base) == ["model", "messages", "system", "temperature", "max_tokens"];
    OverridesDefaults(base, config.config);
    assert base[0].0 == "model" && base[1].0 == "messages" && base[2].0 == "system";
    assert base[3].0 == "temperature" && base[4].0 == "max_tokens";
  }

  /**
   * Unless `config.config` sets `system`, the serialized body has a `system`
   * member exactly when the request has a system prompt (an empty one included).
   */
  lemma SystemOnWire(config: LLMConfig, request: LLMRequest)
    requires "system" !in Keys(config.config)
    ensures "system" in Keys(Serialized(Body(config, request))) <==> request.systemPrompt.Some?
  {
    SystemKept(config, request);
    SerializedKey(Body(config, request), "system");
  }

  /** Unless `config.config` names `system`, the body keeps the system field of the request. */
  lemma SystemKept(config: LLMConfig, request: LLMRequest)
    requires "system" !in Keys(config.config)
    ensures Distinct(Keys(Body(config, request)))
    ensures "system" in Keys(Body(config, request))
    ensures Lookup(Body(config, request), "system") == SystemField(request)
  {
    var base := Defaults(config, request);
    BodyFields(config, request);
    MergeKeys(base, config.config);
    assert Keys(base)[2] == "system";
  }

  /** Input and output counts, each 0 when missing or falsy; the total is their sum. */
  function Usage(usage: Json): (u: TokenUsage)
    ensures CountsAs(Prop(usage, Name("input_tokens")), u.prompt)
    ensures CountsAs(Prop(usage, Name("output_tokens")), u.completion)
    ensures u.total == u.prompt + u.completion
  {
    var prompt := Count(Or(Prop(usage, Name("input_tokens")), Num(0.0)));
    var completion := Count(Or(Prop(usage, Name("output_tokens")), Num(0.0)));
    TokenUsage(prompt, completion, prompt + completion)
  }

  /**
   * Reading a success body: the content at `content[0].text`; it throws
   * exactly when the body, `content` or `content[0]` is null or undefined.
   */
  function Reply(data: Json, eng: Engine): (r: Completion<Parsed>)
    ensures r.Normal? <==> forall j :: 0 <= j < |ContentPath| ==> !Nullish(OptPath(data, ContentPath[..j]))
    ensures r.Normal? ==> r.value == Parsed(OptPath(data, ContentPath), Some(Usage(Prop(data, Name("usage")))))
    ensures r.Abrupt? ==> r.thrown.ErrorObject?
    ensures r.Abrupt? ==>
      exists j :: FirstNullishAt(data, ContentPath, j)
        && r.thrown == ErrorObject(eng.accessError(OptPath(data, ContentPath[..j]), ContentPath[j]))
  {
    GetPathAgrees(data, ContentPath, eng);
    GetPathError(data, ContentPath, eng);
    var content :- GetPath(data, ContentPath, eng);
    Normal(Parsed(content, Some(Usage(Prop(data, Name("usage"))))))
  }

  /**
   * `AnthropicProvider.call`: always sends `Request(config, request)`; never
   * throws; a non-ok status gives `Anthropic API error: <status> - <body>`;
   * success gives `content[0].text` and a usage whose total is the sum of
   * the other two counts; any exception becomes an error result.
   */
  function Call(config: LLMConfig, request: LLMRequest, w: World, eng: Engine): (x: Exchange)
    ensures x.sent == Some(Request(config, request))
    ensures x.response.responseTime == w.end - w.start
    ensures x.response.error.Some? ==> x.response.content == Str("") && x.response.tokensUsed.None?
    ensures x.response.error.None? ==>
      x.response.tokensUsed.Some? && x.response.tokensUsed.value.total == x.response.tokensUsed.value.prompt + x.response.tokensUsed.value.completion
    ensures w.outcome.Rejected? ==> x.response.error == Some(ErrorText(w.outcome.thrown))
    ensures w.outcome.Resolved? && !IsOk(w.outcome.response) && w.outcome.response.text.Normal? ==>
      x.response.error == Some(StatusError(Label, w.outcome.response.status, w.outcome.response.text.value))
    ensures w.outcome.Resolved? && !IsOk(w.outcome.response) && w.outcome.response.text.Abrupt? ==>
      x.response.error == Some(ErrorText(w.outcome.response.text.thrown))
    ensures w.outcome.Resolved? && IsOk(w.outcome.response) && w.outcome.response.json.Abrupt? ==>
      x.response.error == Some(ErrorText(w.outcome.response.json.thrown))
    ensures w.outcome.Resolved? && IsOk(w.outcome.response) && w.outcome.response.json.Normal? ==>
      var data := w.outcome.response.json.value;
      if forall j :: 0 <= j < |ContentPath| ==> !Nullish(OptPath(data, ContentPath[..j])) then
        x.response == LLMResponse(OptPath(data, ContentPath), Some(Usage(Prop(data, Name("usage")))), w.end - w.start, None)
      else
        exists j :: FirstNullishAt(data, ContentPath, j)
          && x.response.error == Some(eng.accessError(OptPath(data, ContentPath[..j]), ContentPath[j]))
  {
    Exchange(Some(Request(config, request)), Settle(Label, w, data => Reply(data, eng)))
  }

  /** A success body `{content: [{text: "hi"}], usage: {input_tokens: 3, output_tokens: 2}}` reads as "hi" with usage 3, 2, 5. */
  lemma ExampleReply(eng: Engine)
    ensures var data := Obj([
              ("content", Arr([Obj([("text", Str("hi"))])])),
              ("usage", Obj([("input_tokens", Num(3.0)), ("output_tokens", Num(2.0))]))]);
            Reply(data, eng) == Normal(Parsed(Str("hi"), Some(TokenUsage(3.0, 2.0, 5.0))))
  {
    var inner := [("text", Str("hi"))];
    var usage := [("input_tokens", Num(3.0)), ("output_tokens", Num(2.0))];
    var fields := [("content", Arr([Obj(inner)])), ("usage", Obj(usage))];
    assert Keys(fields) == ["content", "usage"];
    assert Keys(usage) == ["input_tokens", "output_tokens"];
    LookupDistinct(fields, 0);
    LookupDistinct(fields, 1);
    LookupDistinct(inner, 0);
    LookupDistinct(usage, 0);
    LookupDistinct(usage, 1);
  }
}
