/**
 * What the three provider adapters (src/lib/llm/providers/) share: the
 * chat message list, the try/catch around one request, and the shape of the
 * failure results.
 */
module Adapter {
  import opened Js
  import opened Decimal
  import opened Seqs
  import opened LlmTypes

  /** Default sampling parameters, applied with `??`. */
  const DefaultTemperature: real := 0.7
  const DefaultMaxTokens: real := 2000.0

  function OrDefault(o: Option<real>, d: real): real {
    match o
    case Some(x) => x
    case None => d
  }

  /** `response.ok`: a status in the range 200 to 299. */
  predicate IsOk(r: HttpResponse) {
    200 <= r.status <= 299
  }

  /** `error instanceof Error ? error.message : 'Unknown error'`. */
  function ErrorText(t: Thrown): string {
    match t
    case ErrorObject(m) => m
    case OtherValue => "Unknown error"
  }

  /** `<provider> API error: <status> - <body text>`. */
  function StatusError(provider: string, status: nat, body: string): string {
    provider + " API error: " + NatToString(status) + " - " + body
  }

  /** A failure result: empty content, no usage, the elapsed time, the message. */
  function Failed(message: string, w: World): LLMResponse {
    LLMResponse(Str(""), None, w.end - w.start, Some(message))
  }

  function Message(role: string, content: string): Json {
    Obj([("role", Str(role)), ("content", Str(content))])
  }

  /** The OpenAI-style message list: the system message when the system prompt is non-empty, then the user prompt. */
  function ChatMessages(request: LLMRequest): (ms: seq<Json>)
    ensures |ms| == if Present(request.systemPrompt) then 2 else 1
    ensures ms[|ms| - 1] == Message("user", request.prompt)
    ensures |ms| == 2 ==> ms[0] == Message("system", request.systemPrompt.value)
  {
    (if Present(request.systemPrompt) then [Message("system", request.systemPrompt.value)] else [])
    + [Message("user", request.prompt)]
  }

  /** The message list as the adapters build it, by pushing onto an empty array. */
  method BuildMessages(request: LLMRequest) returns (messages: seq<Json>)
    ensures messages == ChatMessages(request)
  {
    messages := [];
    if Present(request.systemPrompt) {
      messages := messages + [Message("system", request.systemPrompt.value)];
    }
    messages := messages + [Message("user", request.prompt)];
  }

  /**
   * `{...defaults, ...extra}` with distinct, plainly named default keys: the
   * keys come out in JavaScript order, so array indices of `extra` lead,
   * and then the default names come first among the names, in their order;
   * a default survives unless `extra` names its key; every key of `extra`
   * reads as in `extra`.
   */
  lemma OverridesDefaults(defaults: Fields, extra: Fields)
    requires forall k :: k in Keys(defaults) ==> PlainName(k)
    requires Distinct(Keys(defaults))
    ensures Distinct(Keys(Merge(defaults, extra)))
    ensures JsOrdered(Keys(Merge(defaults, extra)))
    ensures |Named(Keys(Merge(defaults, extra)))| >= |defaults|
    ensures Named(Keys(Merge(defaults, extra)))[..|defaults|] == Keys(defaults)
    ensures forall i :: 0 <= i < |defaults| && defaults[i].0 !in Keys(extra) ==>
      Lookup(Merge(defaults, extra), defaults[i].0) == defaults[i].1
    ensures forall k :: k in Keys(extra) ==> Lookup(Merge(defaults, extra), k) == Lookup(extra, k)
  {
    NamedPlain(Keys(defaults));
    MergeNamed(defaults, extra);
    MergeWellFormed(defaults, extra);
    forall i | 0 <= i < |defaults| && defaults[i].0 !in Keys(extra)
      ensures Lookup(Merge(defaults, extra), defaults[i].0) == defaults[i].1
    {
      LookupDistinct(defaults, i);
      MergeLookup(defaults, extra, defaults[i].0);
    }
    forall k | k in Keys(extra) ensures Lookup(Merge(defaults, extra), k) == Lookup(extra, k) {
      MergeLookup(defaults, extra, k);
    }
  }

  /** What a successful parse of a response body gives. */
  datatype Parsed = Parsed(content: Json, tokensUsed: Option<TokenUsage>)

  /**
   * The body of `try { ... } catch` after `fetch` has settled: a rejected fetch,
   * a rejected body read or an exception in `parse` becomes an error result;
   * a non-ok status becomes `<provider> API error: ...` with the body text; an
   * ok status yields what `parse` reads from the JSON body. The result never
   * throws and always carries the elapsed time.
   */
  function Settle(provider: string, w: World, parse: Json -> Completion<Parsed>): (r: LLMResponse)
    ensures r.responseTime == w.end - w.start
    ensures r.error.Some? ==> r.content == Str("") && r.tokensUsed.None?
    ensures w.outcome.Rejected? ==> r == Failed(ErrorText(w.outcome.thrown), w)
    ensures w.outcome.Resolved? && !IsOk(w.outcome.response) ==>
      r == match w.outcome.response.text
           case Normal(body) => Failed(StatusError(provider, w.outcome.response.status, body), w)
           case Abrupt(t) => Failed(ErrorText(t), w)
    ensures w.outcome.Resolved? && IsOk(w.outcome.response) ==>
      r == match w.outcome.response.json
           case Abrupt(t) => Failed(ErrorText(t), w)
           case Normal(data) =>
             match parse(data)
             case Abrupt(t) => Failed(ErrorText(t), w)
             case Normal(p) => LLMResponse(p.content, p.tokensUsed, w.end - w.start, None)
  {
    match w.outcome
    case Rejected(t) => Failed(ErrorText(t), w)
    case Resolved(resp) =>
      if !IsOk(resp) then
        match resp.text
        case Abrupt(t) => Failed(ErrorText(t), w)
        case Normal(body) => Failed(StatusError(provider, resp.status, body), w)
      else
        match resp.json
        case Abrupt(t) => Failed(ErrorText(t), w)
        case Normal(data) =>
          match parse(data)
          case Abrupt(t) => Failed(ErrorText(t), w)
          case Normal(p) => LLMResponse(p.content, p.tokensUsed, w.end - w.start, None)
  }

  /**
   * A usage field as a token count. The source passes the value read through
   * unchanged; here a number is taken as is and any other value counts 0.
   */
  function Count(v: Json): real {
    if v.Num? then v.n else 0.0
  }

  /** `x` is the count `v || 0` reports: the number itself, and 0 when `v` is falsy. */
  predicate CountsAs(v: Json, x: real) {
    (v.Num? ==> x == v.n) && (!Truthy(v) ==> x == 0.0)
  }
}
