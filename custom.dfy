/** The format-tolerant custom adapter (src/lib/llm/providers/custom.ts). */
module Custom {
  import opened Js
  import opened Seqs
  import opened LlmTypes
  import opened Adapter
  import OpenAI
  import Anthropic

  const Label := "Custom"
  const MissingEndpoint := "Custom provider requires an API endpoint"

  /** The fixed headers, before `config.config.headers` is spread over them. */
  function BaseHeaders(config: LLMConfig): Fields {
    [("Content-Type", Str("application/json")), ("Authorization", Str("Bearer " + config.apiKey))]
  }

  /** `config.config?.headers || {}`, as object spread copies it. */
  function ExtraHeaders(config: LLMConfig): Fields {
    Spread(Or(Lookup(config.config, "headers"), Obj([])))
  }

  function Headers(config: LLMConfig): Fields {
    Merge(BaseHeaders(config), ExtraHeaders(config))
  }

  /** The request is only built once the endpoint check has passed. */
  function Request(config: LLMConfig, request: LLMRequest): HttpRequest
    requires Present(config.apiEndpoint)
  {
    HttpRequest(config.apiEndpoint.value, "POST", Headers(config), OpenAI.Body(config, request))
  }

  /**
   * Headers: Content-Type and the bearer Authorization first among the
   * names, with any array-index keys (a string or array `headers` setting
   * spreads its indices) before them, as JavaScript orders them; an object in
   * `config.config.headers` overrides them key by key (Authorization
   * included) and adds its other keys; without one the fixed two are all.
   */
  lemma HeaderMerge(config: LLMConfig)
    ensures Distinct(Keys(Headers(config))) && JsOrdered(Keys(Headers(config)))
    ensures |Named(Keys(Headers(config)))| >= 2
    ensures Named(Keys(Headers(config)))[..2] == ["Content-Type", "Authorization"]
    ensures forall k :: k in Keys(ExtraHeaders(config)) ==> Lookup(Headers(config), k) == Lookup(ExtraHeaders(config), k)
    ensures "Authorization" !in Keys(ExtraHeaders(config)) ==>
      Lookup(Headers(config), "Authorization") == Str("Bearer " + config.apiKey)
    ensures Lookup(config.config, "headers").Obj? ==> ExtraHeaders(config) == Lookup(config.config, "headers").fields
    ensures !Truthy(Lookup(config.config, "headers")) ==> Headers(config) == BaseHeaders(config)
  {
    var base := BaseHeaders(config);
    assert Keys(base) == ["Content-Type", "Authorization"];
    OverridesDefaults(base, ExtraHeaders(config));
    assert base[1].0 == "Authorization";
  }

  /**
   * The body is the OpenAI adapter's: same message list and defaults, with
   * every key of `config.config` spread last, `headers` itself included.
   */
  lemma BodyIsOpenAIBody(config: LLMConfig, request: LLMRequest)
    requires Present(config.apiEndpoint)
    ensures Request(config, request).body == OpenAI.Request(config, request).body
    ensures "headers" in Keys(config.config) ==>
      Lookup(Request(config, request).body, "headers") == Lookup(config.config, "headers")
  {
    OpenAI.BodyFields(config, request);
  }

  /** The four places a reply's text is looked for, in order. */
  function Candidates(data: Json): seq<Json> {
    [ OptPath(data, OpenAI.ContentPath),
      OptPath(data, Anthropic.ContentPath),
      Prop(data, Name("response")),
      Prop(data, Name("text")) ]
  }

  /**
   * The content of a success body: the first truthy of
   * `choices[0].message.content`, `content[0].text`, `response` and `text`,
   * else the whole body as JSON text. Only a null body throws (reading
   * `data.choices` fails before any optional chaining applies).
   */
  function Content(data: Json, eng: Engine): (r: Completion<Json>)
    ensures r.Abrupt? <==> Nullish(data)
    ensures !Nullish(data) ==>
      var cs := Candidates(data);
      && (Truthy(cs[0]) ==> r == Normal(cs[0]))
      && (!Truthy(cs[0]) && Truthy(cs[1]) ==> r == Normal(cs[1]))
      && (!Truthy(cs[0]) && !Truthy(cs[1]) && Truthy(cs[2]) ==> r == Normal(cs[2]))
      && (!Truthy(cs[0]) && !Truthy(cs[1]) && !Truthy(cs[2]) && Truthy(cs[3]) ==> r == Normal(cs[3]))
      && (!Truthy(cs[0]) && !Truthy(cs[1]) && !Truthy(cs[2]) && !Truthy(cs[3]) ==> r == Normal(Str(eng.stringify(data))))
  {
    if Nullish(data) then Abrupt(ErrorObject(eng.accessError(data, Name("choices"))))
    else Normal(FirstTruthy(Candidates(data), Str(eng.stringify(data))))
  }

  /** The content as the adapter computes it: `let content = ''`, reassigned along an if/else chain. */
  method PickContent(data: Json, eng: Engine) returns (r: Completion<Json>)
    ensures r == Content(data, eng)
  {
    if Nullish(data) {
      return Abrupt(ErrorObject(eng.accessError(data, Name("choices"))));
    }
    var cs := Candidates(data);
    var content := Str("");
    if Truthy(cs[0]) {
      content := cs[0];
    } else if Truthy(cs[1]) {
      content := cs[1];
    } else if Truthy(cs[2]) {
      content := cs[2];
    } else if Truthy(cs[3]) {
      content := cs[3];
    } else {
      content := Str(eng.stringify(data));
    }
    r := Normal(content);
  }

  /** `prompt_tokens || input_tokens || 0`, `completion_tokens || output_tokens || 0`, `total_tokens || 0`. */
  function Usage(usage: Json): (u: TokenUsage)
    ensures Truthy(Prop(usage, Name("prompt_tokens"))) ==> CountsAs(Prop(usage, Name("prompt_tokens")), u.prompt)
    ensures !Truthy(Prop(usage, Name("prompt_tokens"))) ==> CountsAs(Prop(usage, Name("input_tokens")), u.prompt)
    ensures Truthy(Prop(usage, Name("completion_tokens"))) ==> CountsAs(Prop(usage, Name("completion_tokens")), u.completion)
    ensures !Truthy(Prop(usage, Name("completion_tokens"))) ==> CountsAs(Prop(usage, Name("output_tokens")), u.completion)
    ensures CountsAs(Prop(usage, Name("total_tokens")), u.total)
  {
    TokenUsage(
      Count(Or(Or(Prop(usage, Name("prompt_tokens")), Prop(usage, Name("input_tokens"))), Num(0.0))),
      Count(Or(Or(Prop(usage, Name("completion_tokens")), Prop(usage, Name("output_tokens"))), Num(0.0))),
      Count(Or(Prop(usage, Name("total_tokens")), Num(0.0))))
  }

  /** A success body: its content, and a usage exactly when `usage` is truthy. */
  function Reply(data: Json, eng: Engine): (r: Completion<Parsed>)
    ensures r.Abrupt? <==> Nullish(data)
    ensures r.Normal? ==> r.value.content == Content(data, eng).value
    ensures r.Normal? ==> (r.value.tokensUsed.Some? <==> Truthy(Prop(data, Name("usage"))))
    ensures r.Normal? && r.value.tokensUsed.Some? ==> r.value.tokensUsed.value == Usage(Prop(data, Name("usage")))
  {
    var content :- Content(data, eng);
    var usage := Prop(data, Name("usage"));
    Normal(Parsed(content, if Truthy(usage) then Some(Usage(usage)) else None))
  }

  /**
   * `CustomProvider.call`: without a non-empty endpoint it sends nothing and
   * fails with the fixed message; otherwise it sends `Request(config,
   * request)`, a non-ok status gives `Custom API error: <status> - <body>`,
   * and a non-null success body never yields an error.
   */
  function Call(config: LLMConfig, request: LLMRequest, w: World, eng: Engine): (x: Exchange)
    ensures !Present(config.apiEndpoint) ==> x == Exchange(None, Failed(MissingEndpoint, w))
    ensures Present(config.apiEndpoint) ==> x.sent == Some(Request(config, request))
    ensures x.response.responseTime == w.end - w.start
    ensures x.response.error.Some? ==> x.response.content == Str("") && x.response.tokensUsed.None?
    ensures Present(config.apiEndpoint) && w.outcome.Rejected? ==> x.response.error == Some(ErrorText(w.outcome.thrown))
    ensures Present(config.apiEndpoint) && w.outcome.Resolved? && !IsOk(w.outcome.response) && w.outcome.response.text.Normal? ==>
      x.response.error == Some(StatusError(Label, w.outcome.response.status, w.outcome.response.text.value))
    ensures Present(config.apiEndpoint) && w.outcome.Resolved? && !IsOk(w.outcome.response) && w.outcome.response.text.Abrupt? ==>
      x.response.error == Some(ErrorText(w.outcome.response.text.thrown))
    ensures Present(config.apiEndpoint) && w.outcome.Resolved? && IsOk(w.outcome.response) && w.outcome.response.json.Abrupt? ==>
      x.response.error == Some(ErrorText(w.outcome.response.json.thrown))
    ensures Present(config.apiEndpoint) && w.outcome.Resolved? && IsOk(w.outcome.response) && w.outcome.response.json.Normal? ==>
      var data := w.outcome.response.json.value;
      && (x.response.error.None? <==> !Nullish(data))
      && (!Nullish(data) ==> x.response.content == Content(data, eng).value)
      && (!Nullish(data) ==> x.response.tokensUsed == if Truthy(Prop(data, Name("usage"))) then Some(Usage(Prop(data, Name("usage")))) else None)
      && (Nullish(data) ==> x.response.error == Some(eng.accessError(data, Name("choices"))))
  {
    if !Present(config.apiEndpoint) then Exchange(None, Failed(MissingEndpoint, w))
    else Exchange(Some(Request(config, request)), Settle(Label, w, data => Reply(data, eng)))
  }

  /** Without an endpoint the outcome of the transport is never consulted: only the clock matters. */
  lemma NoEndpointNoRequest(config: LLMConfig, request: LLMRequest, w1: World, w2: World, eng: Engine)
    requires !Present(config.apiEndpoint)
    requires w1.end - w1.start == w2.end - w2.start
    ensures Call(config, request, w1, eng).sent.None?
    ensures Call(config, request, w1, eng).response.error == Some("Custom provider requires an API endpoint")
    ensures Call(config, request, w1, eng) == Call(config, request, w2, eng)
  {
  }

  /** Whatever the OpenAI adapter reads as truthy content, the custom adapter reads the same. */
  lemma ReadsOpenAIShape(data: Json, eng: Engine)
    requires OpenAI.Reply(data, eng).Normal? && Truthy(OpenAI.Reply(data, eng).value.content)
    ensures Reply(data, eng).Normal? && Reply(data, eng).value.content == OpenAI.Reply(data, eng).value.content
  {
    assert !Nullish(OptPath(data, OpenAI.ContentPath[..0]));
  }

  /**
   * Whatever the Anthropic adapter reads as truthy content, the custom
   * adapter reads the same, unless an OpenAI-shaped content precedes it.
   */
  lemma ReadsAnthropicShape(data: Json, eng: Engine)
    requires Anthropic.Reply(data, eng).Normal? && Truthy(Anthropic.Reply(data, eng).value.content)
    requires !Truthy(OptPath(data, OpenAI.ContentPath))
    ensures Reply(data, eng).Normal? && Reply(data, eng).value.content == Anthropic.Reply(data, eng).value.content
  {
  }

  /** A body `{response: "ok"}` reads as "ok". */
  lemma ExampleBareResponse(eng: Engine)
    ensures Reply(Obj([("response", Str("ok"))]), eng) == Normal(Parsed(Str("ok"), None))
  {
  }
}
