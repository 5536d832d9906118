/**
 * Listing and creating LLM configurations (src/app/api/llm-configs/route.ts).
 * The session and the database are parameters: `session` is the signed-in
 * user's id, `table` the stored configurations, `newId` the id the database
 * assigns to an inserted row.
 */
module ConfigRoute {
  import opened Js
  import opened LlmTypes

  /** A row of the configurations table. */
  datatype StoredConfig = StoredConfig(
    id: string,
    userId: string,
    name: string,
    provider: string,
    model: string,
    apiKey: string,
    apiEndpoint: Option<string>,
    isActive: bool,
    config: Fields)

  /** The fields of a creation request as posted. */
  datatype CreateBody = CreateBody(
    name: Option<string>,
    provider: Option<string>,
    model: Option<string>,
    apiKey: Option<string>,
    apiEndpoint: Option<string>,
    config: Fields)

  datatype ListReply = ListError(status: nat, error: string) | Listed(configs: seq<StoredConfig>)

  datatype CreateReply = CreateError(status: nat, error: string) | Created(status: nat, config: StoredConfig)

  /** The rows that belong to `user`, in table order. */
  function Owned(table: seq<StoredConfig>, user: string): (owned: seq<StoredConfig>)
    ensures forall c :: c in owned <==> c in table && c.userId == user
    ensures |owned| <= |table|
  {
    if table == [] then []
    else
      var rest := Owned(table[1..], user);
      assert forall c :: c in table <==> c == table[0] || c in table[1..];
      (if table[0].userId == user then [table[0]] else []) + rest
  }

  /** The owner filter keeps table order: it distributes over concatenation. */
  lemma {:induction false} OwnedAppend(a: seq<StoredConfig>, b: seq<StoredConfig>, user: string)
    ensures Owned(a + b, user) == Owned(a, user) + Owned(b, user)
  {
    if a != [] {
      assert (a + b)[1..] == a[1..] + b;
      OwnedAppend(a[1..], b, user);
    } else {
      assert a + b == b;
    }
  }

  /** `GET`: 401 without a session, otherwise exactly the caller's configurations. */
  function List(session: Option<string>, table: seq<StoredConfig>): (r: ListReply)
    ensures session.None? ==> r == ListError(401, "Unauthorized")
    ensures session.Some? ==> r.Listed? && forall c :: c in r.configs <==> c in table && c.userId == session.value
    ensures session.Some? ==> r == Listed(Owned(table, session.value))
  {
    match session
    case None => ListError(401, "Unauthorized")
    case Some(user) => Listed(Owned(table, user))
  }

  /** `!name || !provider || !model || !apiKey` does not hold. */
  predicate FieldsGiven(body: CreateBody) {
    Present(body.name) && Present(body.provider) && Present(body.model) && Present(body.apiKey)
  }

  /**
   * `POST`: 401 without a session before anything else; 400 when a required
   * field is missing or empty; 400 for a custom provider without an
   * endpoint; otherwise a new row owned by the caller, active, with the
   * posted fields (any other provider may omit the endpoint).
   */
  function Create(session: Option<string>, body: CreateBody, newId: string): (r: CreateReply)
    ensures session.None? ==> r == CreateError(401, "Unauthorized")
    ensures session.Some? && !FieldsGiven(body) ==>
      r == CreateError(400, "Name, provider, model, and API key are required")
    ensures session.Some? && FieldsGiven(body) && body.provider.value == "custom" && !Present(body.apiEndpoint) ==>
      r == CreateError(400, "API endpoint is required for custom providers")
    ensures r.Created? <==>
      session.Some? && FieldsGiven(body) && (body.provider.value == "custom" ==> Present(body.apiEndpoint))
    ensures r.Created? ==> r.status == 201 && r.config == StoredConfig(
      newId, session.value, body.name.value, body.provider.value, body.model.value, body.apiKey.value,
      body.apiEndpoint, true, body.config)
  {
    if session.None? then CreateError(401, "Unauthorized")
    else if !FieldsGiven(body) then CreateError(400, "Name, provider, model, and API key are required")
    else if body.provider.value == "custom" && !Present(body.apiEndpoint) then
      CreateError(400, "API endpoint is required for custom providers")
    else
      Created(201, StoredConfig(
        newId, session.value, body.name.value, body.provider.value, body.model.value, body.apiKey.value,
        body.apiEndpoint, true, body.config))
  }

  /** Every created row is active and owned by the caller, and a created custom row has an endpoint. */
  lemma CreatedRowInvariant(session: Option<string>, body: CreateBody, newId: string)
    requires Create(session, body, newId).Created?
    ensures var c := Create(session, body, newId).config;
      c.isActive && Some(c.userId) == session && c.name != "" && c.model != "" && c.apiKey != ""
      && (c.provider == "custom" ==> Present(c.apiEndpoint))
  {
  }
}
