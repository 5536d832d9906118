# LLM dispatch layer of llmplayground, modelled in Dafny

llmplayground sends one prompt to several large-language-model
configurations side by side. This project models the layer that does it:

- the three provider adapters (OpenAI, Anthropic and "custom", an
  OpenAI-compatible endpoint), each of which builds one HTTP request and
  turns whatever comes back into an `LLMResponse`;
- the dispatcher, which looks the provider up by name and calls several
  configurations, one outcome per configuration;
- the chat route, which validates a chat request, finds the caller's
  configurations, opens or reuses a conversation and stores one response row
  per configuration;
- the configuration route, which lists the caller's configurations and
  validates new ones;
- the model picker, which offers the active configurations and toggles the
  selection under a cap.

JavaScript behaviour the code relies on is written out in module `Js`:
- truthiness, `||` and `?.`;
- a property read that throws a `TypeError` on `null`/`undefined`;
- object spread, where a later key overrides an earlier one but keeps the
  earlier key's position, and keys are enumerated in JavaScript order
  (array-index keys such as `"0"` first, ascending, then the other names in
  insertion order);
- `JSON.stringify` dropping `undefined` members;
- thrown values, as a `Completion` that is either normal or abrupt.

The network is a parameter, a `World`. It fixes whether `fetch` rejects or
resolves, the status, whether reading the body as text or JSON throws, and
the two clock readings around the request. Each adapter is a function from
configuration, request and world to an `Exchange`: the request put on the
wire (if any) and the `LLMResponse` returned. `JSON.stringify` of an
arbitrary value and the host's `TypeError` messages are left uninterpreted
(the `Engine` parameter).

Files, one module each:
- `seqs.dfy`, `decimal.dfy`: distinctness and counting; decimal text of integers;
- `js.dfy`: the JavaScript values and operators above;
- `llm_types.dfy`: the configuration, request, response and HTTP types;
- `adapter.dfy`: what all three adapters share;
- `openai.dfy`, `anthropic.dfy`, `custom.dfy`: the adapters;
- `dispatch.dfy`: the provider registry, `callLLM` and `callMultipleLLMs`;
- `config_route.dfy`, `chat_route.dfy`: the two API routes;
- `selector.dfy`: the model picker component.

Behaviour of the code worth noting, which the model keeps:
- settings stored with a configuration are spread last into the request
  body, so they override `model` and `messages` too, not only the sampling
  parameters;
- `callLLM` and `callMultipleLLMs` catch nothing themselves;
- the custom adapter reports `total` as `total_tokens || 0`, never as absent;
- the custom adapter spreads any truthy `config.headers` value into the
  headers;
- the custom adapter throws (and so reports an error) on a JSON `null` body.

## Model

| member | source | states |
|---|---|---|
| Js.Or | src/app/api/chat/route.ts:91 | `a \|\| b` is one of its operands; it is truthy iff either operand is; it is `a` whenever `a` is truthy and `b` whenever `a` is falsy |
| Js.FirstTruthy | src/lib/llm/providers/custom.ts:70-71 | a chain of `\|\|` yields the first truthy candidate, and the fallback when none is truthy |
| Js.LookupLast | src/lib/llm/providers/openai.ts:28-34 | reading a key of an object literal gives the value of its last occurrence |
| Js.LookupDistinct | src/lib/llm/providers/openai.ts:28-34 | in an object whose keys are distinct, each key reads back its own value |
| Js.LookupMissing | src/lib/llm/providers/openai.ts:53-55 | a key the object lacks reads as `undefined` |
| Js.LookupAppend | src/lib/llm/providers/openai.ts:28-34 | adding a member at the end changes what that key reads and nothing else |
| Js.Replace | src/lib/llm/providers/openai.ts:33 | overwriting a key keeps the key order and changes only that key |
| Js.Put | src/lib/llm/providers/openai.ts:33 | assigning a key sets it, leaves other keys alone, keeps an existing key's position and appends a new name |
| Js.PutIndexPlaced | src/lib/llm/providers/openai.ts:33 | a new array-index key is inserted right after the leading indices smaller than it |
| Js.InsertPos | src/lib/llm/providers/openai.ts:33 | a new array index is placed after exactly the leading indices that are smaller |
| Js.InsertOrdered | src/lib/llm/providers/openai.ts:33 | inserting a new array index there keeps the keys in JavaScript order |
| Js.PutShape | src/lib/llm/providers/openai.ts:33 | assignment keeps keys distinct and in JavaScript order, and a new name goes after all other names |
| Js.MergeLookup | src/lib/llm/providers/openai.ts:28-34 | after `{...base, ...extra}` a key reads from `extra` when `extra` has it, otherwise from `base` |
| Js.MergeKeys | src/lib/llm/providers/openai.ts:28-34 | spreading has exactly the keys of both sides and no fewer members than `base` |
| Js.MergeNamed | src/lib/llm/providers/openai.ts:28-34 | spreading keeps `base`'s names first among the names, in their order (array indices of `extra` go before them) |
| Js.MergeWellFormed | src/lib/llm/providers/openai.ts:28-34 | spreading into an object with distinct keys in JavaScript order keeps both properties |
| Js.Serialized | src/lib/llm/providers/anthropic.ts:17-29 | `JSON.stringify` keeps exactly the members whose value is not `undefined` |
| Js.SerializedAppend | src/lib/llm/providers/anthropic.ts:17-29 | `JSON.stringify` writes the kept members in the object's own order (serializing distributes over concatenation) |
| Js.SerializedKey | src/lib/llm/providers/anthropic.ts:25 | a key reaches the wire iff the object has it with a value other than `undefined` |
| Js.GetPathThrowsErrors | src/lib/llm/providers/openai.ts:51 | a failing property chain throws an `Error` object, never another value |
| Js.GetPathAgrees | src/lib/llm/providers/openai.ts:51 | a plain property chain succeeds iff no proper prefix is `null`/`undefined`, and then agrees with the optional chain |
| Js.GetPathError | src/lib/llm/providers/openai.ts:51 | a failing plain property chain throws the `TypeError` of reading its key from the first `null`/`undefined` value on the chain |
| Js.Spread | src/lib/llm/providers/custom.ts:29 | spreading an object gives its members; spreading a falsy value gives nothing |
| Decimal.NatToString | src/lib/llm/providers/openai.ts:44 | the decimal text of a status is non-empty digits with no leading zero |
| Decimal.ParseNatToString | src/lib/llm/providers/openai.ts:44 | the decimal text of a natural number reads back as that number |
| Decimal.NatToStringInjective | src/lib/llm/providers/openai.ts:44 | different statuses are reported with different texts |
| Decimal.IntToString | src/app/api/chat/route.ts:93 | the decimal text of an integer starts with `-` iff the integer is negative, followed by non-empty digits with no leading zero |
| Decimal.ParseIntToString | src/app/api/chat/route.ts:93 | the decimal text of an integer reads back as that integer |
| Adapter.ChatMessages | src/lib/llm/providers/openai.ts:10-20 | the message list has two entries iff a system prompt is given, the system one first, and always ends with the user's prompt |
| Adapter.BuildMessages | src/lib/llm/providers/openai.ts:10-20 | pushing the messages one by one yields that list |
| Adapter.OverridesDefaults | src/lib/llm/providers/openai.ts:28-34 | spreading stored settings over the defaults gives distinct keys in JavaScript order with the default names first among the names, lets every stored setting win, and keeps each default nobody overrides |
| Adapter.Settle | src/lib/llm/providers/openai.ts:37-65 | the shared outcome table: a rejected fetch or a throwing read gives the thrown message; a non-2xx status gives `<provider> API error: <status> - <body>`; a 2xx status gives what the parser reads; an error always comes with empty content and no usage, and every outcome carries the elapsed time |
| OpenAI.RequestTarget | src/lib/llm/providers/openai.ts:8-27 | the request goes to the configured endpoint when one is set, otherwise to the OpenAI URL, with a `Bearer` key |
| OpenAI.BodyFields | src/lib/llm/providers/openai.ts:28-34 | the body's keys are distinct and in JavaScript order, with model, messages, temperature and max_tokens (defaults 0.7 and 2000) first among the names; stored settings override any of them |
| OpenAI.Usage | src/lib/llm/providers/openai.ts:53-55 | each count is the numeric field's value, and 0 when the field is missing or falsy |
| OpenAI.Reply | src/lib/llm/providers/openai.ts:48-58 | reading `choices[0].message.content` succeeds iff no step is `null`/`undefined`; it then returns that content with usage, and otherwise throws the `TypeError` of the first `null`/`undefined` step |
| OpenAI.Call | src/lib/llm/providers/openai.ts:4-66 | always sends the request above; errors carry empty content and no usage; a success always reports usage; a rejected fetch, a throwing `text()` on an error status and a throwing `json()` on success each give the thrown message; an error status gives the status message; a success body without `choices[0].message` gives the message of the `TypeError` from its first `null`/`undefined` step |
| Anthropic.RequestTarget | src/lib/llm/providers/anthropic.ts:8-16 | the request goes to the configured endpoint or the Anthropic URL, with `x-api-key` and version 2023-06-01 |
| Anthropic.BodyFields | src/lib/llm/providers/anthropic.ts:17-29 | the body's keys are distinct and in JavaScript order, with model, messages, system, temperature and max_tokens first among the names; stored settings override any of them |
| Anthropic.SystemOnWire | src/lib/llm/providers/anthropic.ts:25 | unless a stored setting sets it, `system` is sent iff the request has a system prompt |
| Anthropic.Usage | src/lib/llm/providers/anthropic.ts:47-51 | input and output counts are the numeric field's value, and 0 when missing or falsy; the total is their sum |
| Anthropic.SystemKept | src/lib/llm/providers/anthropic.ts:25 | unless a stored setting sets it, the body has a `system` key holding the request's system prompt field |
| Anthropic.Reply | src/lib/llm/providers/anthropic.ts:43-53 | reading `content[0].text` succeeds iff no step is `null`/`undefined`, and then returns that text with usage; otherwise it throws the `TypeError` of the first `null`/`undefined` step |
| Anthropic.Call | src/lib/llm/providers/anthropic.ts:4-61 | always sends the request above; the outcome table with label `Anthropic`, including the thrown message when `text()` or `json()` throws and the `TypeError` message when the body lacks `content[0]`; a success reports usage whose total is the sum |
| Anthropic.ExampleReply | src/lib/llm/providers/anthropic.ts:45-51 | a concrete Messages-API reply yields its text and 3 + 2 = 5 tokens |
| Custom.HeaderMerge | src/lib/llm/providers/custom.ts:26-30 | header keys are distinct and in JavaScript order, with Content-Type and Authorization first among the names; `config.headers` entries override them; without that setting the headers are the base two |
| Custom.BodyIsOpenAIBody | src/lib/llm/providers/custom.ts:31-37 | the custom body is exactly the OpenAI body, including a `headers` setting spread into it |
| Custom.Content | src/lib/llm/providers/custom.ts:53-65 | extracting content throws iff the body is `null`/`undefined`; otherwise it is the first truthy of `choices[0].message.content`, `content[0].text`, `response`, `text`, in that order, else the body as JSON text |
| Custom.PickContent | src/lib/llm/providers/custom.ts:54-65 | the `if`/`else if` chain assigning `content` computes exactly that extraction |
| Custom.Usage | src/lib/llm/providers/custom.ts:69-73 | prompt is `prompt_tokens` when truthy, else `input_tokens`; completion likewise with `output_tokens`; each counts as the number, and 0 when falsy; total is `total_tokens` or 0 |
| Custom.Reply | src/lib/llm/providers/custom.ts:51-75 | usage is reported iff `data.usage` is truthy; the content is the extracted one |
| Custom.Call | src/lib/llm/providers/custom.ts:4-83 | without an endpoint nothing is sent and the error is `Custom provider requires an API endpoint`; otherwise the request goes to the endpoint and the outcome table applies with label `Custom`, including the thrown message when `text()` or `json()` throws and, for a `null` JSON body, the `TypeError` message of reading `choices`; usage is reported iff `data.usage` is truthy |
| Custom.NoEndpointNoRequest | src/lib/llm/providers/custom.ts:8-10 | a missing endpoint fails the same way whatever the network would have done |
| Custom.ReadsOpenAIShape | src/lib/llm/providers/custom.ts:55-56 | a reply the OpenAI adapter reads with truthy content is read the same way here |
| Custom.ReadsAnthropicShape | src/lib/llm/providers/custom.ts:57-58 | a reply the Anthropic adapter reads with truthy content, and no OpenAI content, is read the same way here |
| Custom.ExampleBareResponse | src/lib/llm/providers/custom.ts:59-73 | a body `{response: "ok"}` yields "ok" and no usage |
| Dispatch.RegistryKeys | src/lib/llm/index.ts:6-10 | exactly three provider names are registered |
| Dispatch.CallLLM | src/lib/llm/index.ts:12-27 | a registered provider name runs its adapter; any other name sends nothing and returns `Unknown provider: <name>` with zero time; errors always carry empty content and no usage |
| Dispatch.CallMultipleLLMs | src/lib/llm/index.ts:29-39 | one outcome per configuration, in order, each tagged with its configuration's id and computed from that configuration and its own world |
| Dispatch.OutcomeIndependent | src/lib/llm/index.ts:33-38 | an outcome depends only on its configuration and its world, not on its neighbours |
| Dispatch.FailureStaysInItsSlot | src/lib/llm/index.ts:33-38 | a failed fetch shows up as an error in its own slot, and the list keeps its length |
| Dispatch.ProviderLookupAsWritten | src/lib/llm/index.ts:16-18 | the lookup as written finds something for the three providers and for every inherited object member name |
| Dispatch.InheritedNamePassesGuard | src/lib/llm/index.ts:16-18 | provider `toString` passes the `!provider` guard as written, where the intended lookup reports it as unknown |
| ConfigRoute.Owned | src/app/api/llm-configs/route.ts:14-16 | the query returns exactly the caller's rows |
| ConfigRoute.OwnedAppend | src/app/api/llm-configs/route.ts:14-16 | the owner filter keeps table order |
| ConfigRoute.List | src/app/api/llm-configs/route.ts:7-18 | 401 without a session, otherwise exactly the caller's rows, each once, in table order (the owner filter) |
| ConfigRoute.Create | src/app/api/llm-configs/route.ts:28-62 | 401 without a session; 400 when a required field is missing; 400 for a custom provider without an endpoint; otherwise 201 with an active row owned by the caller, and only then |
| ConfigRoute.CreatedRowInvariant | src/app/api/llm-configs/route.ts:37-60 | every created row is active, has the four required fields, and has an endpoint if it is custom |
| ChatRoute.Title | src/app/api/chat/route.ts:51 | a new conversation's title is the prompt when it has at most 50 characters, otherwise its first 50 followed by `...` |
| ChatRoute.FindOwned | src/app/api/chat/route.ts:32-37 | a row is found iff it is in the table, belongs to the caller and its id was requested; no more rows than the table holds |
| ChatRoute.FindOwnedDistinct | src/app/api/chat/route.ts:32-37 | rows with distinct ids give found rows with distinct ids |
| ChatRoute.FoundIds | src/app/api/chat/route.ts:32-37 | the found ids are the requested ids that name one of the caller's rows |
| ChatRoute.FoundCount | src/app/api/chat/route.ts:32-44 | with distinct requested ids, the count check passes iff every id names one of the caller's rows |
| ChatRoute.RepeatedIdNotFound | src/app/api/chat/route.ts:39-44 | a request naming a configuration twice is always answered 404 |
| ChatRoute.FindByIdAt | src/app/api/chat/route.ts:97 | with distinct ids, `find` by the id of the row at a position returns that row |
| ChatRoute.ToRecord | src/app/api/chat/route.ts:88-105 | the stored content is never `null`/`undefined` (a falsy content becomes `''`); usage and error are stored as returned; the name is the configuration's name or `Unknown`; the time is its decimal text plus `ms`, and the number reads back |
| ChatRoute.ToLLMConfig | src/app/api/chat/route.ts:66-74 | the dispatched configuration copies id, name, provider, model, key and settings; it has an endpoint iff the row's endpoint is a non-empty string, and then the same one |
| ChatRoute.Dispatched | src/app/api/chat/route.ts:65-76 | one result per row found, tagged with that row's id |
| ChatRoute.RecordsNamed | src/app/api/chat/route.ts:97-101 | each stored response is named after the configuration at its position, or `Unknown` when that name is empty |
| ChatRoute.Post | src/app/api/chat/route.ts:8-107 | the four rejections (401, 400, 400, 404) and the iff for success; a given conversation is reused, otherwise one titled after the prompt is created; one record per row found, built from that row's dispatch outcome |
| ChatRoute.CreatedCustomConfigSends | src/app/api/llm-configs/route.ts:44-49 | a custom configuration accepted by the configuration route always reaches the network when chatted with |
| Selector.ActiveLLMs | src/components/LLMSelector.tsx:24 | exactly the active configurations are offered |
| Selector.ActiveLLMsAppend | src/components/LLMSelector.tsx:24 | the filter keeps the given order |
| Selector.Without | src/components/LLMSelector.tsx:28 | deselecting leaves exactly the other selected ids |
| Selector.WithoutAbsent | src/components/LLMSelector.tsx:28 | removing an id that is not selected changes nothing |
| Selector.WithoutAppend | src/components/LLMSelector.tsx:28 | removal keeps the order of the remaining ids |
| Selector.WithoutDistinct | src/components/LLMSelector.tsx:28 | removing a selected id from a selection without repeats shortens it by exactly one |
| Selector.LimitMessage | src/components/LLMSelector.tsx:31 | the alert reads `You can select a maximum of <n> LLMs` with `<n>` the cap's decimal text, and that number reads back as the cap |
| Selector.HandleToggle | src/components/LLMSelector.tsx:26-35 | a selected id is removed and nothing else changes (the selection becomes `Without(selected, id)`); an unselected one is appended iff fewer than the cap are selected, otherwise the alert fires |
| Selector.ToggleKeepsLimit | src/components/LLMSelector.tsx:26-35 | every click keeps the selection free of repeats and within the cap |
| Selector.ToggleFlipsHighlight | src/components/LLMSelector.tsx:26-62 | a click flips whether the button is highlighted, except when the alert fires |
| Selector.DoubleToggleRestores | src/components/LLMSelector.tsx:26-35 | selecting and then deselecting an id, below the cap, restores the selection |

## Left out

- Network, clock and concurrency: `fetch`, `Date.now` and `Promise.all` are not modelled. Each configuration gets its own `World`, a parameter fixing the outcome and the two clock readings, and the outcomes are combined in order. Interleaving is not modelled.
- Numbers are reals. Floating-point rounding is not modelled. The `?? 0.7` and `?? 2000` defaults are modelled.
- `JSON.stringify` of an arbitrary value and the text of host `TypeError`s are uninterpreted functions (`Js.Engine`). The string form of header values is not modelled.
- String lengths count Dafny characters, not UTF-16 code units. This matters for `ChatRoute.Title` on text outside the Basic Multilingual Plane.
- Authentication, the database, generated ids and timestamps are parameters: the session user, the table of rows, the new conversation id. Inserting the user and assistant messages, the conversation timestamp update and the response's database ids are not modelled. The 500 answers to database failures are not modelled either.
- The request body of both routes arrives already split into typed fields. A truthy non-string prompt or a non-array id list is not modelled.
- The rendering of the picker is left out, apart from which buttons exist and which are highlighted.
- Objects that arrive as data (a stored `config.config`, a parsed reply) keep their members in the order given. Only objects the code builds, by assignment and spread, are put into JavaScript key order by the model.
- Dispatch.ProviderLookupAsWritten: covers the lookup and the `!provider` guard only. What `provider.call(config, request)` then does with an inherited member is not modelled: for `toString` the call returns a string where a response is expected, and for `__proto__` it throws, which fails the whole chat request.
- OpenAI.Usage: a usage value that is not a number counts as 0 instead of being passed through unchanged.
- Anthropic.Usage: a usage value that is not a number counts as 0, so `total` is a numeric sum, not a string concatenation.
- Custom.Usage: a usage value that is not a number counts as 0 instead of being passed through unchanged.

## Findings

| source | as written | input that shows it | evidently intended | confidence | as-written member | corrected member |
|---|---|---|---|---|---|---|
| src/lib/llm/index.ts:16-18 | `providers[config.provider]` reads a plain object, so names inherited from `Object.prototype` pass the `!provider` guard | a configuration whose provider is `toString` (the configuration route stores any non-empty provider name) | only the three registered names are providers; any other name is answered `Unknown provider: <name>` | not executed | Dispatch.ProviderLookupAsWritten | Dispatch.CallLLM |
