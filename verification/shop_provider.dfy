/** The shop copy of the provider: it serves the one to-do list configured
    for the add-on. It classifies the list's integration from the entity
    state, fetches the items with the matching handler and applies the
    caller's limit. */
module ShopProvider {
  import opened PyText
  import opened PyJson
  import opened HomeAssistant
  import opened Normalize
  import opened Probe
  import opened Handlers

  /** The integration kinds that have a dedicated handler. */
  const KnownKinds: set<Json> := {
    Str("local_todo"), Str("google_tasks"), Str("todoist"), Str("caldav"),
    Str("alexa_todo"), Str("bring"), Str("legacy_shopping_list")
  }

  /** The classification of one entity state. */
  function ClassifyState(sd: Json, listId: string): Try<Json>
  {
    var attrs :- Get(sd, "attributes", Obj([]));
    var features :- Get(attrs, "supported_features", Int(0));
    if features == Int(71) then Ok(Str("bring"))
    else if HasKey(attrs, "integration") then Ok(Field(attrs, "integration", Null))
    else if listId == LegacyListId then Ok(Str("legacy_shopping_list"))
    else Ok(Str("unknown"))
  }

  /** The integration kind of the configured list: "bring", the legacy
      kind, "unknown", or else the value of the state's "integration"
      attribute, passed on as it is, whatever its type. */
  function DetectIntegrationType(listId: string, b: Backend): (r: Json)
    ensures r == Str("bring") || r == Str("legacy_shopping_list") || r == Str("unknown") ||
            (b.stateOf(listId).Reply? && r == Field(Field(b.stateOf(listId).body, "attributes", Obj([])), "integration", Null))
  {
    match b.stateOf(listId)
    case Reply(sd) => (match ClassifyState(sd, listId) case Ok(kind) => kind case Raise => Str("unknown"))
    case _ => Str("unknown")
  }

  /** The attributes of a well-formed entity state, when the state was read. */
  predicate StateHasAttrs(b: Backend, listId: string, attrs: Json)
  {
    b.stateOf(listId).Reply? && b.stateOf(listId).body.Obj?
    && Field(b.stateOf(listId).body, "attributes", Obj([])) == attrs && attrs.Obj?
  }

  /** Precedence of the classifier: supported_features = 71 means Bring!
      even when an "integration" attribute says otherwise; an "integration"
      attribute is returned verbatim; the legacy kind comes from the reserved
      id only when there is no "integration" attribute. */
  lemma ClassifierPrecedence(listId: string, b: Backend, attrs: Json)
    requires StateHasAttrs(b, listId, attrs)
    ensures Field(attrs, "supported_features", Int(0)) == Int(71) ==>
      DetectIntegrationType(listId, b) == Str("bring")
    ensures Field(attrs, "supported_features", Int(0)) != Int(71) && HasKey(attrs, "integration") ==>
      DetectIntegrationType(listId, b) == Field(attrs, "integration", Null)
    ensures listId == LegacyListId && Field(attrs, "supported_features", Int(0)) != Int(71) && !HasKey(attrs, "integration") ==>
      DetectIntegrationType(listId, b) == Str("legacy_shopping_list")
  {
  }

  /** The legacy kind is reached only through the reserved id or an
      "integration" attribute that says so; a state that cannot be read or
      has the wrong shape classifies as unknown. */
  lemma LegacyKindSources(listId: string, b: Backend)
    ensures DetectIntegrationType(listId, b) == Str("legacy_shopping_list") ==>
      listId == LegacyListId ||
      exists attrs :: StateHasAttrs(b, listId, attrs) && Field(attrs, "integration", Null) == Str("legacy_shopping_list")
    ensures !b.stateOf(listId).Reply? || !b.stateOf(listId).body.Obj? ==>
      DetectIntegrationType(listId, b) == Str("unknown")
  {
    if DetectIntegrationType(listId, b) == Str("legacy_shopping_list") && listId != LegacyListId {
      var attrs := Field(b.stateOf(listId).body, "attributes", Obj([]));
      assert StateHasAttrs(b, listId, attrs);
    }
  }

  /** The generic probe of an entity state. */
  function GenericFromState(sd: Json, env: Env): Try<Option<seq<ListItem>>>
  {
    var attrs :- Get(sd, "attributes", Obj([]));
    ProbeItems(attrs, GenericAttributes, GenericProbe, env)
  }

  /** The generic handler: the first truthy item attribute of the state,
      else the todo endpoints. A failed state read, or a state that is not a
      dict, gives nothing; a non-200 one goes straight to the endpoints. */
  function GenericItems(listId: string, b: Backend, env: Env): (r: seq<ListItem>)
    ensures b.stateOf(listId).Failed? ==> r == []
    ensures b.stateOf(listId).Non200? ==> r == GenericEndpoints(listId, b, env)
    ensures b.stateOf(listId).Reply? && !b.stateOf(listId).body.Obj? ==> r == []
  {
    match b.stateOf(listId)
    case Failed => []
    case Non200 => GenericEndpoints(listId, b, env)
    case Reply(sd) =>
      match GenericFromState(sd, env)
      case Raise => []
      case Ok(Some(active)) => active
      case Ok(None) => GenericEndpoints(listId, b, env)
  }

  /** bring from the entity state: the first truthy attribute among
      `BringAttributes`, else the non-empty records of "purchase_items". */
  function BringFromState(sd: Json, env: Env): Try<Option<seq<ListItem>>>
  {
    var attrs :- Get(sd, "attributes", Obj([]));
    var found :- ProbeItems(attrs, BringAttributes, BringState, env);
    if found.Some? then Ok(found)
    else if HasKey(attrs, "purchase_items") then
      var purchased :- PurchaseItemsOf(Field(attrs, "purchase_items", Obj([])), env);
      Ok(if purchased != [] then Some(purchased) else None)
    else Ok(None)
  }

  /** The last Bring! attempt: todo.get_items with a raw list id, read only
      from the nested service_response shape. */
  function RawNested(sr: Json, listId: string, env: Env): Try<seq<ListItem>>
  {
    var nested :- Contains(sr, "service_response");
    if !nested then Ok([])
    else
      var svc :- Get(sr, "service_response", Obj([]));
      var hasList :- Contains(svc, listId);
      if !hasList then Ok([])
      else
        var entityData :- Get(svc, listId, Obj([]));
        var items :- Get(entityData, "items", Arr([]));
        NormalizeJson(BringRaw, items, env)
  }

  function BringRawItems(listId: string, b: Backend, env: Env): seq<ListItem>
  {
    match b.getItemsRaw(listId, RawListId(listId))
    case Reply(sr) => Recover(RawNested(sr, listId, env))
    case _ => []
  }

  /** bring: the service reply, else the entity state, else the raw call.
      A 200 service reply is final; a failed service call or, after a
      non-200 one, a failed state read gives nothing; a non-200 state read
      goes straight to the raw call. */
  function BringItems(listId: string, b: Backend, env: Env): (r: seq<ListItem>)
    ensures b.getItems(listId).Reply? ==> r == BringServiceItems(b.getItems(listId).body, listId, env)
    ensures b.getItems(listId).Failed? ==> r == []
    ensures b.getItems(listId).Non200? && b.stateOf(listId).Failed? ==> r == []
    ensures b.getItems(listId).Non200? && b.stateOf(listId).Non200? ==> r == BringRawItems(listId, b, env)
  {
    match b.getItems(listId)
    case Reply(sr) => BringServiceItems(sr, listId, env)
    case Failed => []
    case Non200 =>
      match b.stateOf(listId)
      case Failed => []
      case Non200 => BringRawItems(listId, b, env)
      case Reply(sd) =>
        match BringFromState(sd, env)
        case Raise => []
        case Ok(Some(active)) => active
        case Ok(None) => BringRawItems(listId, b, env)
  }

  /** A 200 service reply settles a Bring! list, even with no records in it:
      the state and the raw call are not consulted. */
  lemma BringServiceReplyIsFinal(listId: string, b: Backend, b': Backend, env: Env)
    requires b.getItems(listId).Reply? && b'.getItems(listId) == b.getItems(listId)
    ensures BringItems(listId, b, env) == BringItems(listId, b', env)
    ensures BringItems(listId, b, env) == BringServiceItems(b.getItems(listId).body, listId, env)
  {
  }

  /** The handler for a kind. */
  function ItemsByIntegration(listId: string, kind: Json, b: Backend, env: Env): (r: seq<ListItem>)
    ensures kind !in KnownKinds ==> r == GenericItems(listId, b, env)
  {
    if kind == Str("local_todo") then LocalTodoItems(listId, b, env)
    else if kind == Str("google_tasks") then GoogleTasksItems(listId, b, env)
    else if kind == Str("todoist") then TodoistItems(listId, b, env)
    else if kind == Str("caldav") then CalDavItems(listId, b, env)
    else if kind == Str("alexa_todo") then AlexaTodoItems(listId, b, env)
    else if kind == Str("bring") then BringItems(listId, b, env)
    else if kind == Str("legacy_shopping_list") then LegacyItems(b, env)
    else GenericItems(listId, b, env)
  }

  /** The reply of get_list_items. */
  datatype Resolved = Resolved(items: seq<ListItem>, totalCount: nat, truncated: bool)

  /** Applying the optional limit: the list is cut only by a positive limit
      below its length; `truncated` compares the total with any given limit. */
  function Truncate(all: seq<ListItem>, limit: Option<int>): (r: Resolved)
    ensures r.totalCount == |all|
    ensures r.items <= all
    ensures |r.items| == (if limit.Some? && 0 < limit.value < |all| then limit.value else |all|)
    ensures r.truncated <==> limit.Some? && |all| > limit.value
  {
    var keep := limit.Some? && limit.value != 0 && limit.value > 0 && limit.value < |all|;
    Resolved(if keep then all[..limit.value] else all, |all|, limit.Some? && |all| > limit.value)
  }

  /** `truncated` can be set while nothing was cut: a limit of zero or below
      returns every item and still reports truncation for a non-empty list. */
  lemma NonPositiveLimitReportsTruncation(all: seq<ListItem>, limit: int)
    requires limit <= 0 && |all| > 0
    ensures Truncate(all, Some(limit)).items == all
    ensures Truncate(all, Some(limit)).truncated
  {
  }

  /** get_list_items for the configured list. Both classification and the
      handler read the list's state; the model gives them the same reply. */
  function GetListItems(listId: string, limit: Option<int>, b: Backend, env: Env): (r: Resolved)
    ensures r.totalCount == |ItemsByIntegration(listId, DetectIntegrationType(listId, b), b, env)|
    ensures limit.None? ==> !r.truncated && r.items == ItemsByIntegration(listId, DetectIntegrationType(listId, b), b, env)
  {
    Truncate(ItemsByIntegration(listId, DetectIntegrationType(listId, b), b, env), limit)
  }

  /** With no "integration" attribute, a plain entity whose state has the
      items in its "items" attribute is served by the generic probe. */
  lemma UnclassifiedListUsesProbe(listId: string, b: Backend, env: Env, attrs: Json)
    requires listId != LegacyListId && StateHasAttrs(b, listId, attrs)
    requires Field(attrs, "supported_features", Int(0)) != Int(71) && !HasKey(attrs, "integration")
    requires Truthy(Field(attrs, "items", Arr([])))
    ensures GetListItems(listId, None, b, env).items ==
      Recover(NormalizeJson(GenericProbe, Field(attrs, "items", Arr([])), env))
  {
    assert DetectIntegrationType(listId, b) == Str("unknown");
    FirstTruthyAt(attrs, GenericAttributes, 0);
  }
}
