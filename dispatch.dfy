/** The provider registry and the fan-out dispatcher (src/lib/llm/index.ts). */
module Dispatch {
  import opened Js
  import opened LlmTypes
  import opened Adapter
  import OpenAI
  import Anthropic
  import Custom

  datatype Provider = OpenAIProvider | AnthropicProvider | CustomProvider

  /** The fixed registry, keyed by the `provider` string of a config. */
  const Providers: map<string, Provider> :=
    map["openai" := OpenAIProvider, "anthropic" := AnthropicProvider, "custom" := CustomProvider]

  lemma RegistryKeys()
    ensures Providers.Keys == {"openai", "anthropic", "custom"}
  {
  }

  function Invoke(p: Provider, config: LLMConfig, request: LLMRequest, w: World, eng: Engine): Exchange {
    match p
    case OpenAIProvider => OpenAI.Call(config, request, w, eng)
    case AnthropicProvider => Anthropic.Call(config, request, w, eng)
    case CustomProvider => Custom.Call(config, request, w, eng)
  }

  /**
   * `callLLM`: for a registered key, exactly that adapter's call; for any
   * other key, no request and the result `Unknown provider: <key>` with empty
   * content and a response time of 0. Only the registry's own keys count
   * (see `ProviderLookupAsWritten`).
   */
  function CallLLM(config: LLMConfig, request: LLMRequest, w: World, eng: Engine): (x: Exchange)
    ensures config.provider !in Providers ==>
      x == Exchange(None, LLMResponse(Str(""), None, 0, Some("Unknown provider: " + config.provider)))
    ensures config.provider in Providers ==> x == Invoke(Providers[config.provider], config, request, w, eng)
    ensures x.response.error.Some? ==> x.response.content == Str("") && x.response.tokensUsed.None?
  {
    if config.provider in Providers then Invoke(Providers[config.provider], config, request, w, eng)
    else Exchange(None, LLMResponse(Str(""), None, 0, Some("Unknown provider: " + config.provider)))
  }

  /** One element of `callMultipleLLMs`'s result. */
  datatype DispatchOutcome = DispatchOutcome(configId: string, response: LLMResponse)

  /**
   * `callMultipleLLMs`: one outcome per config, in the configs' order, entry
   * i carrying `configs[i].id` and the result of calling config i in its own
   * world `env(i)`. The calls run concurrently in the source; only their
   * results and order are modelled.
   */
  function CallMultipleLLMs(configs: seq<LLMConfig>, request: LLMRequest, env: nat -> World, eng: Engine): (outcomes: seq<DispatchOutcome>)
    ensures |outcomes| == |configs|
    ensures forall i :: 0 <= i < |configs| ==>
      outcomes[i] == DispatchOutcome(configs[i].id, CallLLM(configs[i], request, env(i), eng).response)
  {
    if configs == [] then []
    else
      var n := |configs| - 1;
      CallMultipleLLMs(configs[..n], request, env, eng)
        + [DispatchOutcome(configs[n].id, CallLLM(configs[n], request, env(n), eng).response)]
  }

  /** Entry i depends only on config i and its world: the other configs and their worlds do not matter. */
  lemma OutcomeIndependent(
    configs: seq<LLMConfig>, others: seq<LLMConfig>, i: nat, j: nat,
    request: LLMRequest, env: nat -> World, env': nat -> World, eng: Engine)
    requires i < |configs| && j < |others|
    requires configs[i] == others[j] && env(i) == env'(j)
    ensures CallMultipleLLMs(configs, request, env, eng)[i] == CallMultipleLLMs(others, request, env', eng)[j]
  {
  }

  /**
   * A call whose transport fails yields an error outcome carrying the
   * exception's message in its own slot, and the batch still has one outcome
   * per config (for every registered provider that reaches the network).
   */
  lemma FailureStaysInItsSlot(configs: seq<LLMConfig>, request: LLMRequest, env: nat -> World, eng: Engine, i: nat)
    requires i < |configs|
    requires configs[i].provider in Providers
    requires configs[i].provider == "custom" ==> Present(configs[i].apiEndpoint)
    requires env(i).outcome.Rejected?
    ensures |CallMultipleLLMs(configs, request, env, eng)| == |configs|
    ensures CallMultipleLLMs(configs, request, env, eng)[i].response ==
      Failed(ErrorText(env(i).outcome.thrown), env(i))
  {
    var r := CallMultipleLLMs(configs, request, env, eng)[i].response;
    match Providers[configs[i].provider]
    case OpenAIProvider =>
    case AnthropicProvider =>
    case CustomProvider =>
  }

  /** Names every plain JavaScript object inherits from Object.prototype. */
  const InheritedNames: set<string> := {
    "constructor", "hasOwnProperty", "isPrototypeOf", "propertyIsEnumerable",
    "toLocaleString", "toString", "valueOf", "__proto__",
    "__defineGetter__", "__defineSetter__", "__lookupGetter__", "__lookupSetter__" }

  /** What `providers[key]` finds in the object literal: an adapter, an inherited member, or nothing. */
  datatype Found = OwnAdapter(p: Provider) | InheritedMember(name: string)

  /**
   * `providers[config.provider]` as written: a plain object literal, so a key
   * naming an inherited member finds that member, and `!provider` is false.
   */
  function ProviderLookupAsWritten(key: string): (r: Option<Found>)
    ensures r.None? <==> key !in Providers && key !in InheritedNames
    ensures key in Providers ==> r == Some(OwnAdapter(Providers[key]))
  {
    if key in Providers then Some(OwnAdapter(Providers[key]))
    else if key in InheritedNames then Some(InheritedMember(key))
    else None
  }

  /**
   * A config whose provider is `toString` (which config creation accepts)
   * passes the unknown-provider guard as written, though no adapter is
   * registered under it; `CallLLM` answers it with the unknown-provider error.
   */
  lemma InheritedNamePassesGuard(config: LLMConfig, request: LLMRequest, w: World, eng: Engine)
    requires config.provider == "toString"
    ensures config.provider !in Providers
    ensures ProviderLookupAsWritten(config.provider).Some?
    ensures CallLLM(config, request, w, eng).response.error == Some("Unknown provider: toString")
  {
    assert "Unknown provider: " + config.provider == "Unknown provider: toString";
  }
}
