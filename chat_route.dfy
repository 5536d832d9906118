/**
 * Sending one prompt to several configurations (src/app/api/chat/route.ts).
 * The session and the database are parameters: `session` is the signed-in
 * user's id, `table` the stored configurations, `newConversationId` the id
 * the database assigns to a new conversation; `env` and `eng` are the
 * dispatcher's.
 */
module ChatRoute {
  import opened Js
  import opened Seqs
  import opened Decimal
  import opened LlmTypes
  import opened Dispatch
  import opened ConfigRoute

  /** The fields of a chat request as posted. */
  datatype ChatBody = ChatBody(prompt: Option<string>, llmConfigIds: Option<seq<string>>, conversationId: Option<string>)

  datatype NewConversation = NewConversation(id: string, userId: string, title: string)

  /** A stored response row, with the name of the configuration that produced it. */
  datatype ResponseRecord = ResponseRecord(
    llmConfigId: string,
    llmName: string,
    content: Json,
    tokensUsed: Option<TokenUsage>,
    responseTime: string,
    error: Option<string>)

  datatype ChatReply =
    | ChatError(status: nat, error: string)
    | ChatOk(
        conversationId: string,
        created: Option<NewConversation>,
        prompt: string,
        selectedModels: seq<string>,
        responses: seq<ResponseRecord>)

  const MaxConfigs := 10
  const TitleLength := 50

  function Min(a: int, b: int): int {
    if a < b then a else b
  }

  /** `prompt.substring(0, 50) + (prompt.length > 50 ? '...' : '')`. */
  function Title(prompt: string): (t: string)
    ensures |t| <= TitleLength + 3
    ensures |prompt| <= TitleLength ==> t == prompt
    ensures |prompt| > TitleLength ==> |t| == TitleLength + 3 && t[..TitleLength] == prompt[..TitleLength] && t[TitleLength..] == "..."
  {
    prompt[..Min(TitleLength, |prompt|)] + (if |prompt| > TitleLength then "..." else "")
  }

  /** `!prompt || !llmConfigIds || llmConfigIds.length === 0` does not hold. */
  predicate RequestComplete(body: ChatBody) {
    Present(body.prompt) && body.llmConfigIds.Some? && |body.llmConfigIds.value| > 0
  }

  function Ids(configs: seq<StoredConfig>): seq<string> {
    seq(|configs|, i requires 0 <= i < |configs| => configs[i].id)
  }

  /**
   * The query: the caller's rows whose id was requested, in table order; a
   * row is found exactly when it is in the table, belongs to the caller and
   * was requested.
   */
  function FindOwned(table: seq<StoredConfig>, user: string, ids: seq<string>): (found: seq<StoredConfig>)
    ensures |found| <= |table|
    ensures forall c :: c in found <==> c in table && c.userId == user && c.id in ids
  {
    if table == [] then []
    else
      assert forall c :: c in table <==> c == table[0] || c in table[1..];
      (if table[0].userId == user && table[0].id in ids then [table[0]] else []) + FindOwned(table[1..], user, ids)
  }

  lemma IdIn(s: seq<StoredConfig>, c: StoredConfig)
    requires c in s
    ensures c.id in Ids(s)
  {
    var i :| 0 <= i < |s| && s[i] == c;
    assert Ids(s)[i] == c.id;
  }

  lemma TailDistinct(table: seq<StoredConfig>)
    requires table != [] && Distinct(Ids(table))
    ensures Distinct(Ids(table[1..]))
    ensures table[0].id !in Ids(table[1..])
  {
    var tail := table[1..];
    forall i, j | 0 <= i < j < |tail| ensures Ids(tail)[i] != Ids(tail)[j] {
      assert Ids(tail)[i] == Ids(table)[i + 1] && Ids(tail)[j] == Ids(table)[j + 1];
    }
    forall m | 0 <= m < |tail| ensures Ids(tail)[m] != table[0].id {
      assert Ids(tail)[m] == Ids(table)[m + 1];
      assert Ids(table)[0] != Ids(table)[m + 1];
    }
  }

  /** Rows with distinct ids stay distinct through the query. */
  lemma {:induction false} FindOwnedDistinct(table: seq<StoredConfig>, user: string, ids: seq<string>)
    requires Distinct(Ids(table))
    ensures Distinct(Ids(FindOwned(table, user, ids)))
  {
    if table != [] {
      var tail := table[1..];
      TailDistinct(table);
      FindOwnedDistinct(tail, user, ids);
      var rest := FindOwned(tail, user, ids);
      if table[0].userId == user && table[0].id in ids {
        FoundFromTail(tail, rest, table[0].id, user, ids);
        assert FindOwned(table, user, ids) == [table[0]] + rest;
        ConsDistinct(table[0], rest);
      } else {
        assert FindOwned(table, user, ids) == rest;
      }
    }
  }

  /** A row whose id is new keeps the ids distinct when put in front. */
  lemma ConsDistinct(c: StoredConfig, rest: seq<StoredConfig>)
    requires Distinct(Ids(rest)) && c.id !in Ids(rest)
    ensures Distinct(Ids([c] + rest))
  {
    var l := Ids([c] + rest);
    assert l == [c.id] + Ids(rest);
    forall i, j | 0 <= i < j < |l| ensures l[i] != l[j] {
      assert l[j] == Ids(rest)[j - 1];
      if i > 0 {
        assert l[i] == Ids(rest)[i - 1];
      }
    }
  }

  /** An id absent from the table is absent from what the query finds in it. */
  lemma FoundFromTail(tail: seq<StoredConfig>, rest: seq<StoredConfig>, id: string, user: string, ids: seq<string>)
    requires rest == FindOwned(tail, user, ids) && id !in Ids(tail)
    ensures id !in Ids(rest)
  {
    if id in Ids(rest) {
      var k :| 0 <= k < |rest| && Ids(rest)[k] == id;
      assert rest[k] in rest;
      IdIn(tail, rest[k]);
    }
  }

  /** The ids found are the requested ids that name one of the caller's rows. */
  lemma FoundIds(table: seq<StoredConfig>, user: string, ids: seq<string>)
    ensures Elems(Ids(FindOwned(table, user, ids))) == Elems(ids) * Elems(Ids(Owned(table, user)))
  {
    var found := FindOwned(table, user, ids);
    var owned := Owned(table, user);
    forall x | x in Elems(Ids(found)) ensures x in ids && x in Ids(owned) {
      var k :| 0 <= k < |found| && Ids(found)[k] == x;
      assert found[k] in found;
      IdIn(owned, found[k]);
    }
    forall x | x in ids && x in Ids(owned) ensures x in Elems(Ids(found)) {
      var k :| 0 <= k < |owned| && Ids(owned)[k] == x;
      assert owned[k] in owned;
      IdIn(found, owned[k]);
    }
  }

  /**
   * With distinct row ids, the query finds at most one row per distinct
   * requested id; when the requested ids are distinct, it finds one row per
   * id exactly when each of them names one of the caller's rows.
   */
  lemma FoundCount(table: seq<StoredConfig>, user: string, ids: seq<string>)
    requires Distinct(Ids(table))
    ensures |FindOwned(table, user, ids)| <= |Elems(ids)|
    ensures Distinct(ids) ==>
      (|FindOwned(table, user, ids)| == |ids| <==> forall id :: id in ids ==> id in Ids(Owned(table, user)))
  {
    var found := FindOwned(table, user, ids);
    var owned := Elems(Ids(Owned(table, user)));
    FindOwnedDistinct(table, user, ids);
    ElemsCard(Ids(found));
    FoundIds(table, user, ids);
    SubsetCard(Elems(Ids(found)), Elems(ids));
    if Distinct(ids) {
      ElemsCard(ids);
      if forall id :: id in ids ==> id in Ids(Owned(table, user)) {
        assert Elems(Ids(found)) == Elems(ids);
      } else {
        var id :| id in ids && id !in Ids(Owned(table, user));
        assert id in Elems(ids) && id !in Elems(Ids(found));
      }
    }
  }

  /** A request that names some configuration twice never finds as many rows as ids: it is answered 404. */
  lemma RepeatedIdNotFound(table: seq<StoredConfig>, user: string, ids: seq<string>)
    requires Distinct(Ids(table)) && !Distinct(ids)
    ensures |FindOwned(table, user, ids)| < |ids|
  {
    FoundCount(table, user, ids);
    ElemsCard(ids);
  }

  /** `configs.find(c => c.id === id)`: the first row with that id. */
  function FindById(configs: seq<StoredConfig>, id: string): Option<StoredConfig> {
    if configs == [] then None
    else if configs[0].id == id then Some(configs[0])
    else FindById(configs[1..], id)
  }

  lemma {:induction false} FindByIdAt(configs: seq<StoredConfig>, i: nat)
    requires Distinct(Ids(configs)) && i < |configs|
    ensures FindById(configs, configs[i].id) == Some(configs[i])
  {
    if i > 0 {
      assert Ids(configs)[0] != Ids(configs)[i];
      var tail := configs[1..];
      assert Distinct(Ids(tail)) by {
        forall a, b | 0 <= a < b < |tail| ensures Ids(tail)[a] != Ids(tail)[b] {
          assert Ids(tail)[a] == Ids(configs)[a + 1] && Ids(tail)[b] == Ids(configs)[b + 1];
        }
      }
      FindByIdAt(tail, i - 1);
    }
  }

  /** `config?.name || 'Unknown'`. */
  function LlmName(configs: seq<StoredConfig>, id: string): string {
    match FindById(configs, id)
    case Some(c) => if c.name != "" then c.name else "Unknown"
    case None => "Unknown"
  }

  /**
   * The row stored for one dispatch outcome: content `result.content || ''`
   * (never null or undefined), the usage and error as returned, and the
   * response time as its decimal text followed by `ms`.
   */
  function ToRecord(result: DispatchOutcome, configs: seq<StoredConfig>): (r: ResponseRecord)
    ensures r.llmConfigId == result.configId
    ensures !Nullish(r.content)
    ensures Truthy(result.response.content) ==> r.content == result.response.content
    ensures !Truthy(result.response.content) ==> r.content == Str("")
    ensures |r.responseTime| >= 3 && r.responseTime[|r.responseTime| - 2..] == "ms"
    ensures ParseInt(r.responseTime[..|r.responseTime| - 2]) == result.response.responseTime
    ensures r.responseTime == IntToString(result.response.responseTime) + "ms"
    ensures r.tokensUsed == result.response.tokensUsed
    ensures r.error == result.response.error
    ensures r.llmName == LlmName(configs, result.configId)
  {
    var time := IntToString(result.response.responseTime);
    ParseIntToString(result.response.responseTime);
    assert (time + "ms")[..|time|] == time;
    ResponseRecord(
      result.configId,
      LlmName(configs, result.configId),
      Or(result.response.content, Str("")),
      result.response.tokensUsed,
      time + "ms",
      result.response.error)
  }

  function Records(results: seq<DispatchOutcome>, configs: seq<StoredConfig>): seq<ResponseRecord> {
    seq(|results|, i requires 0 <= i < |results| => ToRecord(results[i], configs))
  }

  /** The configuration handed to the dispatcher: an empty endpoint becomes absent (`c.apiEndpoint || undefined`). */
  function ToLLMConfig(c: StoredConfig): (r: LLMConfig)
    ensures r.id == c.id && r.name == c.name && r.provider == c.provider && r.model == c.model
    ensures r.apiKey == c.apiKey && r.config == c.config
    ensures r.apiEndpoint.Some? <==> Present(c.apiEndpoint)
    ensures r.apiEndpoint.Some? ==> r.apiEndpoint == c.apiEndpoint
  {
    LLMConfig(c.id, c.name, c.provider, c.model, c.apiKey, if Present(c.apiEndpoint) then c.apiEndpoint else None, c.config)
  }

  function DispatchConfigs(configs: seq<StoredConfig>): seq<LLMConfig> {
    seq(|configs|, i requires 0 <= i < |configs| => ToLLMConfig(configs[i]))
  }

  /** What a validated request dispatches: the rows found, each in its own world, with the prompt alone. */
  function Dispatched(configs: seq<StoredConfig>, prompt: string, env: nat -> World, eng: Engine): (results: seq<DispatchOutcome>)
    ensures |results| == |configs|
    ensures forall i :: 0 <= i < |configs| ==> results[i].configId == configs[i].id
  {
    CallMultipleLLMs(DispatchConfigs(configs), LLMRequest(prompt, None, None, None), env, eng)
  }

  /** With distinct ids, each stored response is named after the configuration at its position. */
  lemma RecordsNamed(configs: seq<StoredConfig>, results: seq<DispatchOutcome>)
    requires Distinct(Ids(configs)) && |results| == |configs|
    requires forall i :: 0 <= i < |configs| ==> results[i].configId == configs[i].id
    ensures forall i :: 0 <= i < |configs| ==>
      Records(results, configs)[i].llmName == if configs[i].name != "" then configs[i].name else "Unknown"
  {
    forall i | 0 <= i < |configs|
      ensures Records(results, configs)[i].llmName == if configs[i].name != "" then configs[i].name else "Unknown"
    {
      FindByIdAt(configs, i);
    }
  }

  /**
   * `POST`: 401 without a session; 400 without a prompt or with no
   * configuration ids; 400 for more than 10 ids; 404 unless the query finds
   * one of the caller's rows per id; otherwise the given conversation is
   * reused (a new one titled after the prompt is created only when none is
   * given), and there is one stored response per row found, in the query's
   * order, each named after its configuration.
   */
  method Post(
    session: Option<string>, body: ChatBody, table: seq<StoredConfig>,
    newConversationId: string, env: nat -> World, eng: Engine)
    returns (reply: ChatReply)
    ensures session.None? ==> reply == ChatError(401, "Unauthorized")
    ensures session.Some? && !RequestComplete(body) ==> reply == ChatError(400, "Prompt and LLM configs are required")
    ensures session.Some? && RequestComplete(body) && |body.llmConfigIds.value| > MaxConfigs ==>
      reply == ChatError(400, "Maximum 10 LLMs can be selected")
    ensures (session.Some? && RequestComplete(body) && |body.llmConfigIds.value| <= MaxConfigs
      && |FindOwned(table, session.value, body.llmConfigIds.value)| != |body.llmConfigIds.value|) ==>
      reply == ChatError(404, "Some LLM configurations not found")
    ensures reply.ChatOk? <==>
      session.Some? && RequestComplete(body) && |body.llmConfigIds.value| <= MaxConfigs
      && |FindOwned(table, session.value, body.llmConfigIds.value)| == |body.llmConfigIds.value|
    ensures reply.ChatOk? ==>
      var found := FindOwned(table, session.value, body.llmConfigIds.value);
      var results := Dispatched(found, body.prompt.value, env, eng);
      && reply.prompt == body.prompt.value
      && reply.selectedModels == body.llmConfigIds.value
      && (Present(body.conversationId) ==> reply.conversationId == body.conversationId.value && reply.created.None?)
      && (!Present(body.conversationId) ==>
            reply.conversationId == newConversationId
            && reply.created == Some(NewConversation(newConversationId, session.value, Title(body.prompt.value))))
      && |reply.responses| == |found|
      && (forall i :: 0 <= i < |found| ==>
            reply.responses[i] == ToRecord(results[i], found) && reply.responses[i].llmConfigId == found[i].id)
      && (Distinct(Ids(table)) ==> forall i :: 0 <= i < |found| ==>
            reply.responses[i].llmName == if found[i].name != "" then found[i].name else "Unknown")
  {
    if session.None? {
      return ChatError(401, "Unauthorized");
    }
    var user := session.value;
    if !RequestComplete(body) {
      return ChatError(400, "Prompt and LLM configs are required");
    }
    var prompt, ids := body.prompt.value, body.llmConfigIds.value;
    if |ids| > MaxConfigs {
      return ChatError(400, "Maximum 10 LLMs can be selected");
    }
    var configs := FindOwned(table, user, ids);
    if |configs| != |ids| {
      return ChatError(404, "Some LLM configurations not found");
    }
    var convId := body.conversationId;
    var created: Option<NewConversation> := None;
    if !Present(convId) {
      created := Some(NewConversation(newConversationId, user, Title(prompt)));
      convId := Some(newConversationId);
    }
    var results := Dispatched(configs, prompt, env, eng);
    var records := Records(results, configs);
    if Distinct(Ids(table)) {
      FindOwnedDistinct(table, user, ids);
      RecordsNamed(configs, results);
    }
    reply := ChatOk(convId.value, created, prompt, ids, records);
  }

  /**
   * A custom configuration accepted by configuration creation always reaches
   * the network when dispatched: the missing-endpoint failure cannot arise
   * through the routes.
   */
  lemma CreatedCustomConfigSends(
    session: Option<string>, body: CreateBody, newId: string, request: LLMRequest, w: World, eng: Engine)
    requires Create(session, body, newId).Created?
    requires Create(session, body, newId).config.provider == "custom"
    ensures CallLLM(ToLLMConfig(Create(session, body, newId).config), request, w, eng).sent.Some?
  {
  }
}
