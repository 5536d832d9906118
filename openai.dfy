/** The OpenAI-style adapter (src/lib/llm/providers/openai.ts). */
module OpenAI {
  import opened Js
  import opened Seqs
  import opened LlmTypes
  import opened Adapter

  const Label := "OpenAI"
  const DefaultEndpoint := "https://api.openai.com/v1/chat/completions"

  /** `data.choices[0].message.content`. */
  const ContentPath: seq<Key> := [Name("choices"), Index(0), Name("message"), Name("content")]

  /** The body fields written before `...config.config`. */
  function Defaults(config: LLMConfig, request: LLMRequest): Fields {
    [ ("model", Str(config.model)),
      ("messages", Arr(ChatMessages(request))),
      ("temperature", Num(OrDefault(request.temperature, DefaultTemperature))),
      ("max_tokens", Num(OrDefault(request.maxTokens, DefaultMaxTokens))) ]
  }

  function Body(config: LLMConfig, request: LLMRequest): Fields {
    Merge(Defaults(config, request), config.config)
  }

  function Request(config: LLMConfig, request: LLMRequest): HttpRequest {
    HttpRequest(
      if Present(config.apiEndpoint) then config.apiEndpoint.value else DefaultEndpoint,
      "POST",
      [("Content-Type", Str("application/json")), ("Authorization", Str("Bearer " + config.apiKey))],
      Body(config, request))
  }

  /**
   * The outgoing request goes to the configured endpoint when it is a
   * non-empty string, else to the default, with a bearer Authorization header.
   */
  lemma RequestTarget(config: LLMConfig, request: LLMRequest)
    ensures Present(config.apiEndpoint) ==> Request(config, request).url == config.apiEndpoint.value
    ensures !Present(config.apiEndpoint) ==> Request(config, request).url == DefaultEndpoint
    ensures Lookup(Request(config, request).headers, "Authorization") == Str("Bearer " + config.apiKey)
  {
    var headers := Request(config, request).headers;
    assert Keys(headers) == ["Content-Type", "Authorization"];
    LookupDistinct(headers, 1);
  }

  /**
   * The body's model, messages, temperature and max_tokens are the defaults
   * unless `config.config` names them; every key of `config.config` wins,
   * `messages` included. Keys are in JavaScript order: array-index keys of
   * `config.config` lead, then the four fixed names in this order, then the
   * other names of `config.config`.
   */
  lemma BodyFields(config: LLMConfig, request: LLMRequest)
    ensures Distinct(Keys(Body(config, request))) && JsOrdered(Keys(Body(config, request)))
    ensures |Named(Keys(Body(config, request)))| >= 4
    ensures Named(Keys(Body(config, request)))[..4] == ["model", "messages", "temperature", "max_tokens"]
    ensures forall k :: k in Keys(config.config) ==> Lookup(Body(config, request), k) == Lookup(config.config, k)
    ensures "model" !in Keys(config.config) ==> Lookup(Body(config, request), "model") == Str(config.model)
    ensures "messages" !in Keys(config.config) ==> Lookup(Body(config, request), "messages") == Arr(ChatMessages(request))
    ensures "temperature" !in Keys(config.config) ==>
      Lookup(Body(config, request), "temperature") == Num(OrDefault(request.temperature, DefaultTemperature))
    ensures "max_tokens" !in Keys(config.config) ==>
      Lookup(Body(config, request), "max_tokens") == Num(OrDefault(request.maxTokens, DefaultMaxTokens))
  {
    var base := Defaults(config, request);
    assert Keys(base) == ["model", "messages", "temperature", "max_tokens"];
    OverridesDefaults(base, config.config);
    assert base[0].0 == "model" && base[1].0 == "messages" && base[2].0 == "temperature" && base[3].0 == "max_tokens";
  }

  /** `usage?.prompt_tokens || 0`, `usage?.completion_tokens || 0`, `usage?.total_tokens || 0`. */
  function Usage(usage: Json): (u: TokenUsage)
    ensures CountsAs(Prop(usage, Name("prompt_tokens")), u.prompt)
    ensures CountsAs(Prop(usage, Name("completion_tokens")), u.completion)
    ensures CountsAs(Prop(usage, Name("total_tokens")), u.total)
  {
    TokenUsage(
      Count(Or(Prop(usage, Name("prompt_tokens")), Num(0.0))),
      Count(Or(Prop(usage, Name("completion_tokens")), Num(0.0))),
      Count(Or(Prop(usage, Name("total_tokens")), Num(0.0))))
  }

  /**
   * Reading a success body: the content at `choices[0].message.content` and
   * the usage counts, each 0 when missing or falsy. It throws exactly when
   * the body or one of `choices`, `choices[0]`, `choices[0].message` is null
   * or undefined.
   */
  function Reply(data: Json, eng: Engine): (r: Completion<Parsed>)
    ensures r.Normal? <==> forall j :: 0 <= j < |ContentPath| ==> !Nullish(OptPath(data, ContentPath[..j]))
    ensures r.Normal? ==> r.value == Parsed(OptPath(data, ContentPath), Some(Usage(Prop(data, Name("usage")))))
    ensures r.Abrupt? ==> r.thrown.ErrorObject?
    ensures r.Abrupt? ==>
      exists j :: FirstNullishAt(data, ContentPath, j)
        && r.thrown == ErrorObject(eng.accessError(OptPath(data, ContentPath[..j]), ContentPath[j]))
  {
    GetPathAgrees(data, ContentPath, eng);
    GetPathError(data, ContentPath, eng);
    assert forall v: Json, ks: seq<Key> :: GetPath(v, ks, eng).Abrupt? ==> GetPath(v, ks, eng).thrown.ErrorObject? by {
      forall v: Json, ks: seq<Key> ensures GetPath(v, ks, eng).Abrupt? ==> GetPath(v, ks, eng).thrown.ErrorObject? {
        GetPathThrowsErrors(v, ks, eng);
      }
    }
    var content :- GetPath(data, ContentPath, eng);
    Normal(Parsed(content, Some(Usage(Prop(data, Name("usage"))))))
  }

  /**
   * `OpenAIProvider.call`: always sends `Request(config, request)`; never
   * throws; on a non-ok status the error is `OpenAI API error: <status> -
   * <body>` with empty content and no usage; on success the content is
   * `choices[0].message.content` and usage is always present; any exception
   * becomes an error result carrying its message.
   */
  function Call(config: LLMConfig, request: LLMRequest, w: World, eng: Engine): (x: Exchange)
    ensures x.sent == Some(Request(config, request))
    ensures x.response.responseTime == w.end - w.start
    ensures x.response.error.Some? ==> x.response.content == Str("") && x.response.tokensUsed.None?
    ensures x.response.error.None? ==> x.response.tokensUsed.Some?
    ensures w.outcome.Rejected? ==> x.response.error == Some(ErrorText(w.outcome.thrown))
    ensures w.outcome.Resolved? && !IsOk(w.outcome.response) && w.outcome.response.text.Normal? ==>
      x.response.error == Some(StatusError(Label, w.outcome.response.status, w.outcome.response.text.value))
    ensures w.outcome.Resolved? && !IsOk(w.outcome.response) && w.outcome.response.text.Abrupt? ==>
      x.response.error == Some(ErrorText(w.outcome.response.text.thrown))
    ensures w.outcome.Resolved? && IsOk(w.outcome.response) && w.outcome.response.json.Abrupt? ==>
      x.response.error == Some(ErrorText(w.outcome.response.json.thrown))
    ensures w.outcome.Resolved? && IsOk(w.outcome.response) && w.outcome.response.json.Normal? ==>
      var data := w.outcome.response.json.value;
      if forall j :: 0 <= j < |ContentPath| ==> !Nullish(OptPath(data, ContentPath[..j])) then
        x.response == LLMResponse(OptPath(data, ContentPath), Some(Usage(Prop(data, Name("usage")))), w.end - w.start, None)
      else
        exists j :: FirstNullishAt(data, ContentPath, j)
          && x.response.error == Some(eng.accessError(OptPath(data, ContentPath[..j]), ContentPath[j]))
  {
    Exchange(Some(Request(config, request)), Settle(Label, w, data => Reply(data, eng)))
  }
}
