/**
 * The records exchanged by the dispatch layer (src/lib/llm/types.ts), and the
 * abstract transport that replaces `fetch` and `Date.now()`.
 */
module LlmTypes {
  import opened Js

  datatype Option<+T> = None | Some(value: T)

  /** `if (s)` on an optional string: present and non-empty. */
  predicate Present(s: Option<string>) {
    s.Some? && s.value != ""
  }

  /** One registered backend; `config` is the free-form object spread into the request. */
  datatype LLMConfig = LLMConfig(
    id: string,
    name: string,
    provider: string,
    model: string,
    apiKey: string,
    apiEndpoint: Option<string>,
    config: Fields)

  /** Temperature is carried as an opaque number and never computed on. */
  datatype LLMRequest = LLMRequest(
    prompt: string,
    temperature: Option<real>,
    maxTokens: Option<real>,
    systemPrompt: Option<string>)

  datatype TokenUsage = TokenUsage(prompt: real, completion: real, total: real)

  /** The uniform result of one call. `content` is whatever JavaScript value the adapter read. */
  datatype LLMResponse = LLMResponse(
    content: Json,
    tokensUsed: Option<TokenUsage>,
    responseTime: int,
    error: Option<string>)

  /** What an adapter hands to `fetch`; every adapter uses POST. */
  datatype HttpRequest = HttpRequest(url: string, httpMethod: string, headers: Fields, body: Fields)

  /** A response whose body reads as text (`response.text()`) or as parsed JSON (`response.json()`); either read may reject. */
  datatype HttpResponse = HttpResponse(status: nat, text: Completion<string>, json: Completion<Json>)

  /** How the awaited `fetch` settled. */
  datatype Outcome = Rejected(thrown: Thrown) | Resolved(response: HttpResponse)

  /**
   * Everything outside the program that one call observes: the transport
   * outcome and the two clock readings (before the request, and once the
   * call has its answer or has failed).
   */
  datatype World = World(outcome: Outcome, start: int, end: int)

  /** One adapter call: the request it sent (None: it sent nothing) and what it returned. */
  datatype Exchange = Exchange(sent: Option<HttpRequest>, response: LLMResponse)
}
